/** Live output accounting: the consumer loop of `_stream_output`. */
module OutputStream {
  import opened Prelude

  datatype Stream = Stdout | Stderr

  datatype Chunk = Chunk(stream: Stream, bytes: seq<Byte>)

  /** What is published: output bytes, or the truncation marker of a stream. */
  datatype Published = Data(stream: Stream, bytes: seq<Byte>) | Truncated(stream: Stream)

  /** Everything the sandbox wrote to one stream, however it was cut into chunks. */
  function Written(chunks: seq<Chunk>, s: Stream): seq<Byte> {
    if chunks == [] then []
    else Written(chunks[..|chunks| - 1], s) +
         (if chunks[|chunks| - 1].stream == s then chunks[|chunks| - 1].bytes else [])
  }

  lemma WrittenGrows(chunks: seq<Chunk>, i: nat)
    requires i < |chunks|
    ensures forall s :: Written(chunks[..i + 1], s) ==
                          Written(chunks[..i], s) + (if chunks[i].stream == s then chunks[i].bytes else [])
  {
    assert chunks[..i + 1][..i] == chunks[..i];
  }

  /** Everything published for one stream. */
  function Shown(events: seq<Published>, s: Stream): seq<Byte> {
    if events == [] then []
    else Shown(events[..|events| - 1], s) +
         (match events[|events| - 1] case Data(t, bytes) => if t == s then bytes else [] case Truncated(_) => [])
  }

  function Markers(events: seq<Published>, s: Stream): nat {
    if events == [] then 0
    else Markers(events[..|events| - 1], s) + (if events[|events| - 1] == Truncated(s) then 1 else 0)
  }

  function Prefix(bytes: seq<Byte>, limit: nat): seq<Byte> {
    if |bytes| <= limit then bytes else bytes[..limit]
  }

  function AtLeastZero(n: int): nat {
    if n < 0 then 0 else n
  }

  ghost predicate NothingAfterMarker(events: seq<Published>) {
    forall i, j :: 0 <= i < j < |events| && events[i].Truncated? ==> events[j].stream != events[i].stream
  }

  lemma ShownAppends(events: seq<Published>, e: Published, s: Stream)
    ensures Shown(events + [e], s) ==
              Shown(events, s) + (match e case Data(t, bytes) => if t == s then bytes else [] case Truncated(_) => [])
    ensures Markers(events + [e], s) == Markers(events, s) + (if e == Truncated(s) then 1 else 0)
  {
    assert (events + [e])[..|events|] == events;
  }

  /** A marker is there once it has been counted. */
  lemma {:induction false} MarkerCounted(events: seq<Published>, s: Stream)
    ensures Markers(events, s) > 0 <==> Truncated(s) in events
  {
    if events != [] {
      MarkerCounted(events[..|events| - 1], s);
      assert events == events[..|events| - 1] + [events[|events| - 1]];
    }
  }

  lemma PrefixGrows(written: seq<Byte>, chunk: seq<Byte>, limit: nat)
    ensures var shown := Prefix(written, limit);
            Prefix(written + chunk, limit) == shown + Prefix(chunk, limit - |shown|)
  {
  }

  /** The loop's account of one stream against what was written to it so far. */
  ghost predicate Accounted(
    events: seq<Published>, s: Stream, written: seq<Byte>, emitted: nat, cut: bool, limit: nat)
  {
    && Shown(events, s) == Prefix(written, limit)
    && emitted == |Shown(events, s)|
    && (cut <==> |written| > limit)
    && Markers(events, s) == (if cut then 1 else 0)
  }

  lemma AccountMeans(events: seq<Published>, s: Stream, written: seq<Byte>, emitted: nat, cut: bool, limit: int)
    requires Accounted(events, s, written, emitted, cut, AtLeastZero(limit))
    ensures Shown(events, s) <= written
    ensures |Shown(events, s)| == if limit < 0 then 0 else if |written| <= limit then |written| else limit
    ensures Markers(events, s) == if |written| > limit && written != [] then 1 else 0
  {
  }

  lemma AccountsMean(
    events: seq<Published>, chunks: seq<Chunk>, emitted: map<Stream, nat>, truncated: set<Stream>, limit: int)
    requires Stdout in emitted && Stderr in emitted
    requires Accounted(events, Stdout, Written(chunks, Stdout), emitted[Stdout],
                       Stdout in truncated, AtLeastZero(limit))
    requires Accounted(events, Stderr, Written(chunks, Stderr), emitted[Stderr],
                       Stderr in truncated, AtLeastZero(limit))
    ensures forall s :: Shown(events, s) <= Written(chunks, s)
    ensures forall s :: |Shown(events, s)| == if limit < 0 then 0
                                             else if |Written(chunks, s)| <= limit then |Written(chunks, s)| else limit
    ensures forall s :: Markers(events, s) == if |Written(chunks, s)| > limit && Written(chunks, s) != [] then 1 else 0
  {
    forall s
      ensures Shown(events, s) <= Written(chunks, s)
      ensures |Shown(events, s)| == if limit < 0 then 0
                                    else if |Written(chunks, s)| <= limit then |Written(chunks, s)| else limit
      ensures Markers(events, s) == if |Written(chunks, s)| > limit && Written(chunks, s) != [] then 1 else 0
    {
      assert s == Stdout || s == Stderr;
      AccountMeans(events, s, Written(chunks, s), emitted[s], s in truncated, limit);
    }
  }

  /** The stream that a chunk does not belong to. */
  function Other(s: Stream): Stream {
    if s.Stdout? then Stderr else Stdout
  }

  /** What the other stream shows does not change. */
  ghost predicate OtherKept(before: seq<Published>, events: seq<Published>, s: Stream) {
    Shown(events, Other(s)) == Shown(before, Other(s)) && Markers(events, Other(s)) == Markers(before, Other(s))
  }

  lemma AfterData(before: seq<Published>, s: Stream, accepted: seq<Byte>)
    requires NothingAfterMarker(before) && Markers(before, s) == 0
    ensures var events := before + [Data(s, accepted)];
            && Shown(events, s) == Shown(before, s) + accepted && Markers(events, s) == 0
            && OtherKept(before, events, s) && NothingAfterMarker(events)
  {
    ShownAppends(before, Data(s, accepted), s);
    ShownAppends(before, Data(s, accepted), Other(s));
    MarkerCounted(before, s);
  }

  lemma AfterMarker(before: seq<Published>, s: Stream)
    requires NothingAfterMarker(before) && Markers(before, s) == 0
    ensures var events := before + [Truncated(s)];
            && Shown(events, s) == Shown(before, s) && Markers(events, s) == 1
            && OtherKept(before, events, s) && NothingAfterMarker(events)
  {
    ShownAppends(before, Truncated(s), s);
    ShownAppends(before, Truncated(s), Other(s));
    MarkerCounted(before, s);
  }

  /** Publish what one chunk adds to its stream, and the marker when the chunk first overflows the limit. */
  method Publish(chunk: Chunk, limit: int, emitted: nat, cut: bool, before: seq<Published>, ghost written: seq<Byte>)
    returns (events: seq<Published>, emitted': nat, cut': bool)
    requires Accounted(before, chunk.stream, written, emitted, cut, AtLeastZero(limit)) && NothingAfterMarker(before)
    ensures Accounted(events, chunk.stream, written + chunk.bytes, emitted', cut', AtLeastZero(limit))
    ensures cut ==> cut'
    ensures NothingAfterMarker(events) && OtherKept(before, events, chunk.stream)
  {
    var s := chunk.stream;
    events, emitted', cut' := before, emitted, cut;
    PrefixGrows(written, chunk.bytes, AtLeastZero(limit));
    var remaining := AtLeastZero(limit - emitted);
    var accepted := Prefix(chunk.bytes, remaining);
    if accepted != [] {
      AfterData(events, s, accepted);
      emitted' := emitted + |accepted|;
      events := events + [Data(s, accepted)];
    }
    if |chunk.bytes| > remaining && !cut {
      AfterMarker(events, s);
      cut' := true;
      events := events + [Truncated(s)];
    }
  }

  /** The account of both streams after the first `n` chunks. */
  ghost predicate Books(
    events: seq<Published>, chunks: seq<Chunk>, n: nat, emitted: map<Stream, nat>, truncated: set<Stream>, limit: nat)
  {
    && n <= |chunks| && Stdout in emitted && Stderr in emitted && NothingAfterMarker(events)
    && Accounted(events, Stdout, Written(chunks[..n], Stdout), emitted[Stdout], Stdout in truncated, limit)
    && Accounted(events, Stderr, Written(chunks[..n], Stderr), emitted[Stderr], Stderr in truncated, limit)
  }

  lemma BooksGrow(
    before: seq<Published>, events: seq<Published>, chunks: seq<Chunk>, n: nat,
    emitted: map<Stream, nat>, truncated: set<Stream>, count: nat, cut: bool, limit: nat)
    requires n < |chunks| && Books(before, chunks, n, emitted, truncated, limit)
    requires Accounted(events, chunks[n].stream, Written(chunks[..n], chunks[n].stream) + chunks[n].bytes,
                       count, cut, limit)
    requires NothingAfterMarker(events) && OtherKept(before, events, chunks[n].stream)
    requires cut || chunks[n].stream !in truncated
    ensures Books(events, chunks, n + 1, emitted[chunks[n].stream := count],
                  if cut then truncated + {chunks[n].stream} else truncated, limit)
  {
    WrittenGrows(chunks, n);
  }

  /**
   Whatever the chunking, each stream shows exactly the first `limit` bytes
   written to it; its marker appears once, after all its data, if and only if
   more than `limit` bytes were written.
   */
  method Account(chunks: seq<Chunk>, limit: int) returns (events: seq<Published>)
    ensures forall s :: Shown(events, s) <= Written(chunks, s)
    ensures forall s :: |Shown(events, s)| == if limit < 0 then 0
                                             else if |Written(chunks, s)| <= limit then |Written(chunks, s)| else limit
    ensures forall s :: Markers(events, s) == if |Written(chunks, s)| > limit && Written(chunks, s) != [] then 1 else 0
    ensures forall i, j :: 0 <= i < j < |events| && events[i].Truncated? ==> events[j].stream != events[i].stream
  {
    events := [];
    var emitted: map<Stream, nat> := map[Stdout := 0, Stderr := 0];
    var truncated: set<Stream> := {};
    for i := 0 to |chunks|
      invariant Books(events, chunks, i, emitted, truncated, AtLeastZero(limit))
    {
      ghost var before := events;
      var stream := chunks[i].stream;
      assert stream == Stdout || stream == Stderr;
      var count, cut;
      events, count, cut :=
        Publish(chunks[i], limit, emitted[stream], stream in truncated, events, Written(chunks[..i], stream));
      BooksGrow(before, events, chunks, i, emitted, truncated, count, cut, AtLeastZero(limit));
      emitted := emitted[stream := count];
      truncated := if cut then truncated + {stream} else truncated;
    }
    assert chunks[..|chunks|] == chunks;
    AccountsMean(events, chunks, emitted, truncated, limit);
  }
}
