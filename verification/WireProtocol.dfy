/**
 The y-websocket frame codec. UTF-8 and JSON are partial functions the codec is
 given; nothing is assumed of them except where a theorem says so.
 */
module WireProtocol {
  import opened Prelude
  import opened Awareness
  import opened VarUint

  const MESSAGE_SYNC: nat := 0
  const MESSAGE_AWARENESS: nat := 1
  const MESSAGE_AUTH: nat := 2
  const MESSAGE_QUERY_AWARENESS: nat := 3
  const SYNC_STEP1: nat := 0
  const SYNC_STEP2: nat := 1
  const SYNC_UPDATE: nat := 2
  const AUTH_PERMISSION_DENIED: nat := 0
  const MAX_MESSAGE_SIZE: nat := 16 * 1024 * 1024
  const MAX_AWARENESS_ENTRIES: nat := 10_000

  datatype Message =
    | Sync(subtype: nat, payload: seq<Byte>)
    | AwarenessUpdate(entries: seq<Entry>)
    | AwarenessQuery
    | Auth(subtype: nat, reason: string)

  /** The foreign codecs; `parseJson` yields None for invalid JSON and Some(None) for null. */
  datatype Text = Text(
    encodeUtf8: string -> seq<Byte>,
    decodeUtf8: seq<Byte> -> Option<string>,
    parseJson: string -> Option<Option<Json>>)

  predicate KnownSubtype(subtype: nat) {
    subtype == SYNC_STEP1 || subtype == SYNC_STEP2 || subtype == SYNC_UPDATE
  }

  // ---- Decoding ----

  function DecodeBytes(data: seq<Byte>, offset: nat): Option<(seq<Byte>, nat)> {
    match Decode(data, offset)
    case None => None
    case Some(d) => if d.next + d.value > |data| then None else Some((SliceOf(data, d.next, d.value), d.next + d.value))
  }

  function SliceOf(data: seq<Byte>, start: nat, length: nat): seq<Byte> {
    if start + length <= |data| then data[start..start + length] else []
  }

  function DecodeString(text: Text, data: seq<Byte>, offset: nat): Option<(string, nat)> {
    match DecodeBytes(data, offset)
    case None => None
    case Some((encoded, next)) =>
      match text.decodeUtf8(encoded)
      case None => None
      case Some(s) => Some((s, next))
  }

  function DecodeEntry(text: Text, payload: seq<Byte>, offset: nat): Option<(Entry, nat)> {
    match Decode(payload, offset)
    case None => None
    case Some(client) =>
      match Decode(payload, client.next)
      case None => None
      case Some(clock) =>
        match DecodeString(text, payload, clock.next)
        case None => None
        case Some((encoded, next)) =>
          match text.parseJson(encoded)
          case None => None
          case Some(state) => Some((Entry(client.value, clock.value, state, encoded), next))
  }

  /** `count` entries from `offset` on, and the offset behind them. */
  function DecodeEntriesFrom(text: Text, payload: seq<Byte>, offset: nat, count: nat): Option<(seq<Entry>, nat)>
    decreases count
  {
    if count == 0 then Some(([], offset))
    else
      match DecodeEntry(text, payload, offset)
      case None => None
      case Some((e, next)) =>
        match DecodeEntriesFrom(text, payload, next, count - 1)
        case None => None
        case Some((rest, end)) => Some(([e] + rest, end))
  }

  function DecodeEntries(text: Text, payload: seq<Byte>): Option<seq<Entry>> {
    match Decode(payload, 0)
    case None => None
    case Some(count) =>
      if count.value > MAX_AWARENESS_ENTRIES then None
      else
        match DecodeEntriesFrom(text, payload, count.next, count.value)
        case None => None
        case Some((entries, end)) => if end != |payload| then None else Some(entries)
  }

  /** `parse_message`; None for a ProtocolError. */
  function Parse(text: Text, frame: seq<Byte>): Option<Message> {
    if frame == [] || |frame| > MAX_MESSAGE_SIZE then None
    else
      match Decode(frame, 0)
      case None => None
      case Some(kind) =>
        if kind.value == MESSAGE_SYNC then ParseSync(frame, kind.next)
        else if kind.value == MESSAGE_AWARENESS then ParseAwareness(text, frame, kind.next)
        else if kind.value == MESSAGE_QUERY_AWARENESS then
          (if kind.next != |frame| then None else Some(AwarenessQuery))
        else if kind.value == MESSAGE_AUTH then ParseAuth(text, frame, kind.next)
        else None
  }

  function ParseSync(frame: seq<Byte>, offset: nat): Option<Message> {
    match Decode(frame, offset)
    case None => None
    case Some(subtype) =>
      if !KnownSubtype(subtype.value) then None
      else
        match DecodeBytes(frame, subtype.next)
        case None => None
        case Some((payload, end)) => if end != |frame| then None else Some(Sync(subtype.value, payload))
  }

  function ParseAwareness(text: Text, frame: seq<Byte>, offset: nat): Option<Message> {
    match DecodeBytes(frame, offset)
    case None => None
    case Some((payload, end)) =>
      if end != |frame| then None
      else
        match DecodeEntries(text, payload)
        case None => None
        case Some(entries) => Some(AwarenessUpdate(entries))
  }

  function ParseAuth(text: Text, frame: seq<Byte>, offset: nat): Option<Message> {
    match Decode(frame, offset)
    case None => None
    case Some(subtype) =>
      if subtype.value != AUTH_PERMISSION_DENIED then None
      else
        match DecodeString(text, frame, subtype.next)
        case None => None
        case Some((reason, end)) => if end != |frame| then None else Some(Auth(subtype.value, reason))
  }

  /** `entries` are read, `left` more start at `offset`, and together they make `whole`. */
  ghost predicate Remaining(
    text: Text, payload: seq<Byte>, whole: Option<(seq<Entry>, nat)>, entries: seq<Entry>, offset: nat, left: nat)
  {
    match DecodeEntriesFrom(text, payload, offset, left)
    case None => whole.None?
    case Some((rest, end)) => whole == Some((entries + rest, end))
  }

  lemma ReadOneMore(
    text: Text, payload: seq<Byte>, whole: Option<(seq<Entry>, nat)>, entries: seq<Entry>, offset: nat, left: nat)
    requires left > 0 && Remaining(text, payload, whole, entries, offset, left)
    ensures DecodeEntry(text, payload, offset).None? ==> whole.None?
    ensures DecodeEntry(text, payload, offset).Some? ==>
              var (e, next) := DecodeEntry(text, payload, offset).value;
              Remaining(text, payload, whole, entries + [e], next, left - 1)
  {
    if DecodeEntry(text, payload, offset).Some? {
      var (e, next) := DecodeEntry(text, payload, offset).value;
      var later := DecodeEntriesFrom(text, payload, next, left - 1);
      if later.Some? {
        assert entries + ([e] + later.value.0) == (entries + [e]) + later.value.0;
      }
    }
  }

  /** One turn of that loop: client, clock, encoded state, and the JSON in it. */
  method ReadEntry(text: Text, payload: seq<Byte>, offset: nat) returns (r: Option<(Entry, nat)>)
    ensures r == DecodeEntry(text, payload, offset)
  {
    var client := DecodeVarUint(payload, offset);
    if client.None? {
      return None;
    }
    var clock := DecodeVarUint(payload, client.value.next);
    if clock.None? {
      return None;
    }
    var state := DecodeString(text, payload, clock.value.next);
    if state.None? {
      return None;
    }
    var json := text.parseJson(state.value.0);
    if json.None? {
      return None;
    }
    r := Some((Entry(client.value.value, clock.value.value, json.value, state.value.0), state.value.1));
  }

  /** `_decode_awareness_entries`, as the loop it is. */
  method DecodeAwarenessEntries(text: Text, payload: seq<Byte>) returns (r: Option<seq<Entry>>)
    ensures r == DecodeEntries(text, payload)
  {
    var header := DecodeVarUint(payload, 0);
    if header.None? || header.value.value > MAX_AWARENESS_ENTRIES {
      return None;
    }
    var read := ReadEntries(text, payload, header.value.next, header.value.value);
    return if read.None? || read.value.1 != |payload| then None else Some(read.value.0);
  }

  /** Its loop. */
  method ReadEntries(text: Text, payload: seq<Byte>, start: nat, count: nat) returns (r: Option<(seq<Entry>, nat)>)
    ensures r == DecodeEntriesFrom(text, payload, start, count)
  {
    var offset := start;
    var entries: seq<Entry> := [];
    ghost var whole := DecodeEntriesFrom(text, payload, start, count);
    assert whole.Some? ==> [] + whole.value.0 == whole.value.0;
    for i := 0 to count
      invariant Remaining(text, payload, whole, entries, offset, count - i)
    {
      ReadOneMore(text, payload, whole, entries, offset, count - i);
      var entry := ReadEntry(text, payload, offset);
      if entry.None? {
        return None;
      }
      entries, offset := entries + [entry.value.0], entry.value.1;
    }
    assert entries + [] == entries;
    return Some((entries, offset));
  }

  // ---- Encoding ----

  function EncodeBytes(value: seq<Byte>): seq<Byte> {
    Encode(|value|) + value
  }

  function EncodeString(text: Text, s: string): seq<Byte> {
    EncodeBytes(text.encodeUtf8(s))
  }

  function EncodeEntry(text: Text, e: Entry): seq<Byte> {
    Encode(e.client) + Encode(e.clock) + EncodeString(text, e.encoded)
  }

  function EncodeEntryList(text: Text, entries: seq<Entry>): seq<Byte> {
    if entries == [] then [] else EncodeEntry(text, entries[0]) + EncodeEntryList(text, entries[1..])
  }

  /** The builders of every message type that `Parse` knows and the source builds. */
  function EncodeMessage(text: Text, m: Message): seq<Byte> {
    match m
    case Sync(subtype, payload) => Encode(MESSAGE_SYNC) + Encode(subtype) + EncodeBytes(payload)
    case AwarenessUpdate(entries) =>
      Encode(MESSAGE_AWARENESS) + EncodeBytes(Encode(|entries|) + EncodeEntryList(text, entries))
    case AwarenessQuery => Encode(MESSAGE_QUERY_AWARENESS)
    case Auth(subtype, reason) => Encode(MESSAGE_AUTH) + Encode(subtype) + EncodeString(text, reason)
  }

  lemma {:induction false} EntryListAppends(text: Text, entries: seq<Entry>, e: Entry)
    ensures EncodeEntryList(text, entries + [e]) == EncodeEntryList(text, entries) + EncodeEntry(text, e)
  {
    if entries == [] {
      assert entries + [e] == [e];
    } else {
      assert (entries + [e])[1..] == entries[1..] + [e];
      EntryListAppends(text, entries[1..], e);
    }
  }

  lemma PayloadGrows(text: Text, entries: seq<Entry>, i: nat)
    requires i < |entries|
    ensures Encode(|entries|) + EncodeEntryList(text, entries[..i + 1])
         == Encode(|entries|) + EncodeEntryList(text, entries[..i]) + EncodeEntry(text, entries[i])
  {
    assert entries[..i + 1] == entries[..i] + [entries[i]];
    EntryListAppends(text, entries[..i], entries[i]);
  }

  /** The range check `encode_var_uint` makes on both numbers of an entry. */
  predicate InRange(e: Entry) {
    e.client <= MAX_SAFE_INTEGER && e.clock <= MAX_SAFE_INTEGER
  }

  /** What `encode_awareness_message` needs so that none of its integers is out of range. */
  predicate Buildable(text: Text, entries: seq<Entry>) {
    && |entries| <= MAX_SAFE_INTEGER
    && (forall i :: 0 <= i < |entries| ==>
          InRange(entries[i]) && |text.encodeUtf8(entries[i].encoded)| <= MAX_SAFE_INTEGER)
    && |Encode(|entries|) + EncodeEntryList(text, entries)| <= MAX_SAFE_INTEGER
  }

  method EncodeVarBytes(value: seq<Byte>) returns (r: Option<seq<Byte>>)
    ensures r == if |value| <= MAX_SAFE_INTEGER then Some(EncodeBytes(value)) else None
  {
    var length := EncodeVarUint(|value|);
    return if length.None? then None else Some(length.value + value);
  }

  method EncodeOneEntry(text: Text, entry: Entry) returns (r: Option<seq<Byte>>)
    ensures r == if InRange(entry) && |text.encodeUtf8(entry.encoded)| <= MAX_SAFE_INTEGER
                 then Some(EncodeEntry(text, entry)) else None
  {
    var client := EncodeVarUint(entry.client);
    if client.None? {
      return None;
    }
    var clock := EncodeVarUint(entry.clock);
    if clock.None? {
      return None;
    }
    var encoded := EncodeVarBytes(text.encodeUtf8(entry.encoded));
    return if encoded.None? then None else Some(client.value + clock.value + encoded.value);
  }

  /** `encode_awareness_message`, as the loop it is; None for the ValueError of an integer out of range. */
  method EncodeAwarenessMessage(text: Text, entries: seq<Entry>) returns (r: Option<seq<Byte>>)
    ensures r == if Buildable(text, entries) then Some(EncodeMessage(text, AwarenessUpdate(entries))) else None
  {
    var header := EncodeVarUint(|entries|);
    if header.None? {
      return None;
    }
    var payload := header.value;
    var i := 0;
    while i < |entries|
      invariant 0 <= i <= |entries|
      invariant payload == Encode(|entries|) + EncodeEntryList(text, entries[..i])
      invariant forall k :: 0 <= k < i ==>
                  InRange(entries[k]) && |text.encodeUtf8(entries[k].encoded)| <= MAX_SAFE_INTEGER
    {
      var bytes := EncodeOneEntry(text, entries[i]);
      if bytes.None? {
        return None;
      }
      payload := payload + bytes.value;
      PayloadGrows(text, entries, i);
      i := i + 1;
    }
    assert entries[..i] == entries;
    var body := EncodeVarBytes(payload);
    return if body.None? then None else Some(Encode(MESSAGE_AWARENESS) + body.value);
  }

  // ---- Round trip ----

  predicate Utf8Safe(text: Text, s: string) {
    text.decodeUtf8(text.encodeUtf8(s)) == Some(s)
  }

  predicate EntryEncodable(text: Text, e: Entry) {
    InRange(e) && Utf8Safe(text, e.encoded) && text.parseJson(e.encoded) == Some(e.state)
  }

  /** What a message must satisfy to have an encoding at all, and to mean something to the foreign codecs. */
  predicate Encodable(text: Text, m: Message) {
    && |EncodeMessage(text, m)| <= MAX_MESSAGE_SIZE
    && match m
       case Sync(subtype, _) => KnownSubtype(subtype)
       case AwarenessUpdate(entries) =>
         |entries| <= MAX_AWARENESS_ENTRIES && forall i :: 0 <= i < |entries| ==> EntryEncodable(text, entries[i])
       case AwarenessQuery => true
       case Auth(subtype, reason) => subtype == AUTH_PERMISSION_DENIED && Utf8Safe(text, reason)
  }

  lemma DecodeEncodedBytes(pre: seq<Byte>, value: seq<Byte>, post: seq<Byte>)
    requires |value| <= MAX_SAFE_INTEGER
    ensures DecodeBytes(pre + EncodeBytes(value) + post, |pre|) == Some((value, |pre| + |EncodeBytes(value)|))
  {
    var data := pre + EncodeBytes(value) + post;
    assert data == pre + Encode(|value|) + (value + post);
    DecodeEncoded(pre, |value|, value + post);
    var start := |pre| + |Encode(|value|)|;
    assert data[start..start + |value|] == value;
  }

  lemma Regroup(pre: seq<Byte>, a: seq<Byte>, b: seq<Byte>, c: seq<Byte>, post: seq<Byte>)
    ensures pre + (a + b + c) + post == pre + a + (b + c + post)
    ensures pre + (a + b + c) + post == pre + a + b + (c + post)
    ensures pre + (a + b + c) + post == pre + a + b + c + post
  {
  }

  lemma DecodeFirst(pre: seq<Byte>, v: nat, b: seq<Byte>, c: seq<Byte>, post: seq<Byte>)
    requires v <= MAX_SAFE_INTEGER
    ensures Decode(pre + (Encode(v) + b + c) + post, |pre|) == Some(Decoded(v, |pre + Encode(v)|))
  {
    Regroup(pre, Encode(v), b, c, post);
    DecodeEncoded(pre, v, b + c + post);
  }

  lemma DecodeSecond(pre: seq<Byte>, a: seq<Byte>, v: nat, c: seq<Byte>, post: seq<Byte>)
    requires v <= MAX_SAFE_INTEGER
    ensures Decode(pre + (a + Encode(v) + c) + post, |pre + a|) == Some(Decoded(v, |pre + a + Encode(v)|))
  {
    Regroup(pre, a, Encode(v), c, post);
    DecodeEncoded(pre + a, v, c + post);
  }

  lemma DecodeThird(pre: seq<Byte>, a: seq<Byte>, b: seq<Byte>, value: seq<Byte>, post: seq<Byte>)
    requires |value| <= MAX_SAFE_INTEGER
    ensures DecodeBytes(pre + (a + b + EncodeBytes(value)) + post, |pre + a + b|)
         == Some((value, |pre + (a + b + EncodeBytes(value))|))
  {
    Regroup(pre, a, b, EncodeBytes(value), post);
    DecodeEncodedBytes(pre + a + b, value, post);
  }

  lemma DecodeEncodedEntry(text: Text, pre: seq<Byte>, e: Entry, post: seq<Byte>)
    requires EntryEncodable(text, e) && |text.encodeUtf8(e.encoded)| <= MAX_SAFE_INTEGER
    ensures DecodeEntry(text, pre + EncodeEntry(text, e) + post, |pre|) == Some((e, |pre| + |EncodeEntry(text, e)|))
  {
    var client, clock, value := Encode(e.client), Encode(e.clock), text.encodeUtf8(e.encoded);
    DecodeFirst(pre, e.client, clock, EncodeBytes(value), post);
    DecodeSecond(pre, client, e.clock, EncodeBytes(value), post);
    DecodeThird(pre, client, clock, value, post);
  }

  lemma DecodeFirstEntry(text: Text, data: seq<Byte>, pre: seq<Byte>, e: Entry, tail: seq<Byte>)
    requires EntryEncodable(text, e) && |EncodeEntry(text, e)| <= MAX_SAFE_INTEGER
    requires data == pre + EncodeEntry(text, e) + tail
    ensures DecodeEntry(text, data, |pre|) == Some((e, |pre + EncodeEntry(text, e)|))
  {
    assert |text.encodeUtf8(e.encoded)| <= |EncodeEntry(text, e)|;
    DecodeEncodedEntry(text, pre, e, tail);
  }

  lemma FirstEntryThenRest(text: Text, data: seq<Byte>, offset: nat, e: Entry, next: nat, rest: seq<Entry>, end: nat)
    requires DecodeEntry(text, data, offset) == Some((e, next))
    requires DecodeEntriesFrom(text, data, next, |rest|) == Some((rest, end))
    ensures DecodeEntriesFrom(text, data, offset, |rest| + 1) == Some(([e] + rest, end))
  {
  }

  lemma {:induction false} DecodeEncodedEntries(text: Text, data: seq<Byte>, pre: seq<Byte>, entries: seq<Entry>)
    requires forall e :: e in entries ==> EntryEncodable(text, e)
    requires data == pre + EncodeEntryList(text, entries) && |data| <= MAX_SAFE_INTEGER
    ensures DecodeEntriesFrom(text, data, |pre|, |entries|) == Some((entries, |data|))
    decreases |entries|
  {
    if entries != [] {
      var first, tail := EncodeEntry(text, entries[0]), EncodeEntryList(text, entries[1..]);
      assert data == pre + first + tail;
      assert DecodeEntry(text, data, |pre|) == Some((entries[0], |pre + first|)) by {
        DecodeFirstEntry(text, data, pre, entries[0], tail);
      }
      DecodeEncodedEntries(text, data, pre + first, entries[1..]);
      FirstEntryThenRest(text, data, |pre|, entries[0], |pre + first|, entries[1..], |data|);
      assert entries == [entries[0]] + entries[1..];
    }
  }

  lemma EncodeNotEmpty(v: nat)
    ensures Encode(v) != []
  {
  }

  lemma ParseEncodedSync(text: Text, subtype: nat, payload: seq<Byte>)
    requires Encodable(text, Sync(subtype, payload))
    ensures Parse(text, EncodeMessage(text, Sync(subtype, payload))) == Some(Sync(subtype, payload))
  {
    var frame := EncodeMessage(text, Sync(subtype, payload));
    var kind := Encode(MESSAGE_SYNC);
    EncodeNotEmpty(MESSAGE_SYNC);
    assert frame == [] + kind + (Encode(subtype) + EncodeBytes(payload));
    DecodeEncoded([], MESSAGE_SYNC, Encode(subtype) + EncodeBytes(payload));
    DecodeEncoded(kind, subtype, EncodeBytes(payload));
    assert frame == kind + Encode(subtype) + EncodeBytes(payload);
    assert frame == (kind + Encode(subtype)) + EncodeBytes(payload) + [];
    DecodeEncodedBytes(kind + Encode(subtype), payload, []);
  }

  lemma ParseEncodedAuth(text: Text, reason: string)
    requires Encodable(text, Auth(AUTH_PERMISSION_DENIED, reason))
    ensures Parse(text, EncodeMessage(text, Auth(AUTH_PERMISSION_DENIED, reason)))
         == Some(Auth(AUTH_PERMISSION_DENIED, reason))
  {
    var frame := EncodeMessage(text, Auth(AUTH_PERMISSION_DENIED, reason));
    var kind, subtype, s := Encode(MESSAGE_AUTH), Encode(AUTH_PERMISSION_DENIED), EncodeString(text, reason);
    EncodeNotEmpty(MESSAGE_AUTH);
    assert frame == [] + kind + (subtype + s);
    DecodeEncoded([], MESSAGE_AUTH, subtype + s);
    assert frame == kind + subtype + s;
    DecodeEncoded(kind, AUTH_PERMISSION_DENIED, s);
    assert frame == (kind + subtype) + s + [];
    DecodeEncodedBytes(kind + subtype, text.encodeUtf8(reason), []);
  }

  lemma DecodeEncodedPayload(text: Text, entries: seq<Entry>)
    requires |entries| <= MAX_AWARENESS_ENTRIES && forall i :: 0 <= i < |entries| ==> EntryEncodable(text, entries[i])
    requires |Encode(|entries|) + EncodeEntryList(text, entries)| <= MAX_SAFE_INTEGER
    ensures DecodeEntries(text, Encode(|entries|) + EncodeEntryList(text, entries)) == Some(entries)
  {
    var count, list := Encode(|entries|), EncodeEntryList(text, entries);
    assert count + list == [] + count + list;
    DecodeEncoded([], |entries|, list);
    DecodeEncodedEntries(text, count + list, count, entries);
  }

  /** Everything around the entries: the message kind and the payload that fills the rest of the frame. */
  lemma ParseAwarenessFrame(text: Text, payload: seq<Byte>)
    requires |Encode(MESSAGE_AWARENESS) + EncodeBytes(payload)| <= MAX_MESSAGE_SIZE
    requires DecodeEntries(text, payload).Some?
    ensures Parse(text, Encode(MESSAGE_AWARENESS) + EncodeBytes(payload))
         == Some(AwarenessUpdate(DecodeEntries(text, payload).value))
  {
    var kind := Encode(MESSAGE_AWARENESS);
    var frame := kind + EncodeBytes(payload);
    EncodeNotEmpty(MESSAGE_AWARENESS);
    assert Decode(frame, 0) == Some(Decoded(MESSAGE_AWARENESS, |kind|)) by {
      assert frame == [] + kind + EncodeBytes(payload);
      DecodeEncoded([], MESSAGE_AWARENESS, EncodeBytes(payload));
    }
    assert DecodeBytes(frame, |kind|) == Some((payload, |frame|)) by {
      assert frame == kind + EncodeBytes(payload) + [];
      DecodeEncodedBytes(kind, payload, []);
    }
  }

  lemma ParseEncodedAwareness(text: Text, entries: seq<Entry>)
    requires Encodable(text, AwarenessUpdate(entries))
    ensures Parse(text, EncodeMessage(text, AwarenessUpdate(entries))) == Some(AwarenessUpdate(entries))
  {
    var payload := Encode(|entries|) + EncodeEntryList(text, entries);
    DecodeEncodedPayload(text, entries);
    ParseAwarenessFrame(text, payload);
  }

  /** Parsing any encodable message's frame returns that message. */
  lemma ParseUndoesEncode(text: Text, m: Message)
    requires Encodable(text, m)
    ensures Parse(text, EncodeMessage(text, m)) == Some(m)
  {
    match m {
      case Sync(subtype, payload) => ParseEncodedSync(text, subtype, payload);
      case AwarenessUpdate(entries) => ParseEncodedAwareness(text, entries);
      case AwarenessQuery =>
        assert EncodeMessage(text, m) == [] + Encode(MESSAGE_QUERY_AWARENESS) + [];
        DecodeEncoded([], MESSAGE_QUERY_AWARENESS, []);
      case Auth(_, reason) => ParseEncodedAuth(text, reason);
    }
  }

  /** No two encodable messages share a frame. */
  lemma EncodingIsInjective(text: Text, a: Message, b: Message)
    requires Encodable(text, a) && Encodable(text, b)
    ensures EncodeMessage(text, a) == EncodeMessage(text, b) <==> a == b
  {
    ParseUndoesEncode(text, a);
    ParseUndoesEncode(text, b);
  }

  // ---- Prefix-freeness ----

  lemma DecodeBytesExtends(data: seq<Byte>, offset: nat, ext: seq<Byte>)
    requires DecodeBytes(data, offset).Some?
    ensures DecodeBytes(data + ext, offset) == DecodeBytes(data, offset)
  {
    DecodeExtends(data, offset, ext);
    var d := Decode(data, offset).value;
    assert (data + ext)[d.next..d.next + d.value] == data[d.next..d.next + d.value];
  }

  /** A frame that parses stops parsing as soon as anything follows it. */
  lemma ExtensionIsRejected(text: Text, frame: seq<Byte>, ext: seq<Byte>)
    requires Parse(text, frame).Some? && ext != []
    ensures Parse(text, frame + ext).None?
  {
    DecodeExtends(frame, 0, ext);
    var kind := Decode(frame, 0).value;
    if kind.value == MESSAGE_SYNC {
      DecodeExtends(frame, kind.next, ext);
      DecodeBytesExtends(frame, Decode(frame, kind.next).value.next, ext);
    } else if kind.value == MESSAGE_AWARENESS {
      DecodeBytesExtends(frame, kind.next, ext);
    } else if kind.value == MESSAGE_AUTH {
      DecodeExtends(frame, kind.next, ext);
      DecodeBytesExtends(frame, Decode(frame, kind.next).value.next, ext);
    }
  }

  /**
   The accepted frames form a prefix-free language, including those with
   non-minimal integers: of two accepted frames neither properly extends the
   other.
   */
  lemma FramesArePrefixFree(text: Text, short: seq<Byte>, long: seq<Byte>)
    requires Parse(text, short).Some? && Parse(text, long).Some?
    requires short <= long
    ensures short == long
  {
    if short != long {
      assert long == short + long[|short|..];
      ExtensionIsRejected(text, short, long[|short|..]);
    }
  }

  // ---- The format ----

  /** What the round trip covers: every message of a known kind whose frame and numbers are within the limits. */
  lemma EncodableIff(text: Text, m: Message)
    ensures Encodable(text, m) <==>
              && |EncodeMessage(text, m)| <= 0x100_0000
              && (m.Sync? ==> m.subtype == 0 || m.subtype == 1 || m.subtype == 2)
              && (m.Auth? ==> m.subtype == 0 && text.decodeUtf8(text.encodeUtf8(m.reason)) == Some(m.reason))
              && (m.AwarenessUpdate? ==>
                    && |m.entries| <= 10_000
                    && forall e :: e in m.entries ==>
                         && e.client <= 0x1F_FFFF_FFFF_FFFF && e.clock <= 0x1F_FFFF_FFFF_FFFF
                         && text.decodeUtf8(text.encodeUtf8(e.encoded)) == Some(e.encoded)
                         && text.parseJson(e.encoded) == Some(e.state))
  {
  }

  /** Nothing but the four message types, the three sync subtypes and a permission denial is ever accepted. */
  lemma AcceptedMessages(text: Text, frame: seq<Byte>)
    requires Parse(text, frame).Some?
    ensures 0 < |frame| <= 0x100_0000
    ensures match Parse(text, frame).value
            case Sync(subtype, payload) => subtype in {0, 1, 2} && |payload| < |frame|
            case AwarenessUpdate(entries) => |entries| <= 10_000
            case AwarenessQuery => true
            case Auth(subtype, _) => subtype == 0
  {
    var kind := Decode(frame, 0).value;
    if kind.value == MESSAGE_SYNC {
      DecodeConsumes(frame, 0);
      DecodeConsumes(frame, kind.next);
    } else if kind.value == MESSAGE_AWARENESS {
      AcceptedEntries(text, DecodeBytes(frame, kind.next).value.0);
    }
  }

  lemma AcceptedEntries(text: Text, payload: seq<Byte>)
    requires DecodeEntries(text, payload).Some?
    ensures |DecodeEntries(text, payload).value| <= 10_000
  {
    var count := Decode(payload, 0).value;
    EntriesAreCounted(text, payload, count.next, count.value);
  }

  lemma {:induction false} EntriesAreCounted(text: Text, payload: seq<Byte>, offset: nat, count: nat)
    requires DecodeEntriesFrom(text, payload, offset, count).Some?
    ensures |DecodeEntriesFrom(text, payload, offset, count).value.0| == count
    decreases count
  {
    if count > 0 {
      EntriesAreCounted(text, payload, DecodeEntry(text, payload, offset).value.1, count - 1);
    }
  }

  lemma DecodeConsumes(data: seq<Byte>, offset: nat)
    requires Decode(data, offset).Some?
    ensures offset < Decode(data, offset).value.next <= |data|
  {
    ScanBounds(data[offset..], 8);
  }

  lemma OneByte(v: nat)
    requires v < 128
    ensures Encode(v) == [v]
  {
  }

  /** The layout, shown on one message of each kind whose numbers take one byte. */
  lemma FrameLayout(text: Text, e: Entry, byte: Byte)
    requires e.client < 128 && e.clock < 128 && text.encodeUtf8(e.encoded) == [byte]
    ensures EncodeMessage(text, Sync(SYNC_UPDATE, [byte])) == [0, 2, 1, byte]
    ensures EncodeMessage(text, AwarenessUpdate([e])) == [1, 5, 1, e.client, e.clock, 1, byte]
    ensures EncodeMessage(text, AwarenessQuery) == [3]
    ensures EncodeMessage(text, Auth(AUTH_PERMISSION_DENIED, e.encoded)) == [2, 0, 1, byte]
  {
    OneByte(0);
    OneByte(1);
    OneByte(2);
    OneByte(3);
    OneByte(5);
    OneByte(e.client);
    OneByte(e.clock);
    assert EncodeEntry(text, e) == [e.client, e.clock, 1, byte];
    assert [e][1..] == [];
    assert EncodeEntryList(text, [e]) == EncodeEntry(text, e) + [];
    assert Encode(1) + EncodeEntryList(text, [e]) == [1, e.client, e.clock, 1, byte];
  }
}
