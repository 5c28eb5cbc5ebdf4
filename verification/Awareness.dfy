/**
 Awareness states and their merge rule: a newer clock replaces an older state,
 and a removal replaces an active state of the same clock.
 */
module Awareness {
  import opened Prelude

  type ClientId = nat
  type Owner = nat

  /** A decoded JSON value other than null, known only by its identity. */
  datatype Json = Json(id: nat)

  /** `state` is None for JSON null, which marks a removal. */
  datatype Entry = Entry(client: ClientId, clock: nat, state: Option<Json>, encoded: string)

  datatype Stored = Stored(entry: Entry, owner: Option<Owner>, lastSeen: real)

  type States = map<ClientId, Stored>

  /** Position of a client's knowledge: by clock, and a removal beats an active state of the same clock. */
  datatype Mark = Mark(clock: nat, removed: bool)

  predicate Below(a: Mark, b: Mark) {
    a.clock < b.clock || (a.clock == b.clock && !a.removed && b.removed)
  }

  predicate AtMost(a: Mark, b: Mark) {
    a == b || Below(a, b)
  }

  function MarkOf(e: Entry): Mark {
    Mark(e.clock, e.state.None?)
  }

  /** An unknown client counts as removed at clock zero. */
  const UNKNOWN := Mark(0, true)

  function MarkIn(states: States, c: ClientId): Mark {
    if c in states then MarkOf(states[c].entry) else UNKNOWN
  }

  /** `should_apply`, as the source tests it. */
  predicate ShouldApply(states: States, e: Entry) {
    var known := e.client in states;
    var clock := if known then states[e.client].entry.clock else 0;
    var active := known && states[e.client].entry.state.Some?;
    clock < e.clock || (clock == e.clock && e.state.None? && active)
  }

  function ApplyOne(states: States, owner: Owner, now: real, e: Entry): States {
    if ShouldApply(states, e)
    then states[e.client := Stored(e, if e.state.None? then None else Some(owner), now)]
    else states
  }

  function ApplyAll(states: States, owner: Owner, now: real, entries: seq<Entry>): States {
    if entries == [] then states
    else ApplyOne(ApplyAll(states, owner, now, entries[..|entries| - 1]), owner, now, entries[|entries| - 1])
  }

  function Accepted(states: States, owner: Owner, now: real, entries: seq<Entry>): seq<Entry> {
    if entries == [] then []
    else
      var before := entries[..|entries| - 1];
      var last := entries[|entries| - 1];
      Accepted(states, owner, now, before) +
      (if ShouldApply(ApplyAll(states, owner, now, before), last) then [last] else [])
  }

  function Removal(e: Entry): Entry {
    Entry(e.client, e.clock, None, "null")
  }

  /** The clients in `gone` are marked removed at their present clock. */
  function Sweep(states: States, gone: set<ClientId>, now: real): States {
    map c | c in states :: if c in gone then Stored(Removal(states[c].entry), None, now) else states[c]
  }

  /** The live clients a disconnecting owner controls. */
  function Owned(states: States, owner: Owner): set<ClientId> {
    set c | c in states && states[c].owner == Some(owner) && states[c].entry.state.Some?
  }

  /** The live clients without a heartbeat for longer than `timeout`. */
  function Stale(states: States, now: real, timeout: real): set<ClientId> {
    set c | c in states && states[c].entry.state.Some? && now - states[c].lastSeen > timeout
  }

  /** What every peer should see. */
  function Active(states: States): map<ClientId, Entry> {
    map c | c in states && states[c].entry.state.Some? :: states[c].entry
  }

  /** Reachable states are keyed by their own client and carry positive clocks. */
  ghost predicate Sound(states: States) {
    forall c :: c in states ==> states[c].entry.client == c && states[c].entry.clock > 0
  }

  /** The source's three-way test is exactly "strictly ahead of what is known". */
  lemma ShouldApplyIff(states: States, e: Entry)
    ensures ShouldApply(states, e) <==> Below(MarkIn(states, e.client), MarkOf(e))
  {
  }

  /**
   Applying entries leaves each client at the largest mark among what was known
   and what arrived: nothing is beyond it, and it is one of them.
   */
  lemma {:induction false} ApplyAllTakesLargest(
    states: States, owner: Owner, now: real, entries: seq<Entry>, c: ClientId)
    ensures var m := MarkIn(ApplyAll(states, owner, now, entries), c);
            && AtMost(MarkIn(states, c), m)
            && (forall e :: e in entries && e.client == c ==> AtMost(MarkOf(e), m))
            && (m == MarkIn(states, c) || exists e :: e in entries && e.client == c && MarkOf(e) == m)
  {
    if entries != [] {
      var before, last := entries[..|entries| - 1], entries[|entries| - 1];
      ApplyAllTakesLargest(states, owner, now, before, c);
      ShouldApplyIff(ApplyAll(states, owner, now, before), last);
      assert entries == before + [last];
    }
  }

  /** Any permutation or duplication of the same entries gives every client the same mark. */
  lemma MergeIsOrderIndependent(states: States, owner: Owner, now: real, a: seq<Entry>, b: seq<Entry>, c: ClientId)
    requires forall e :: e in a <==> e in b
    ensures MarkIn(ApplyAll(states, owner, now, a), c) == MarkIn(ApplyAll(states, owner, now, b), c)
  {
    ApplyAllTakesLargest(states, owner, now, a, c);
    ApplyAllTakesLargest(states, owner, now, b, c);
  }

  lemma {:induction false} ApplyAllStaysSound(states: States, owner: Owner, now: real, entries: seq<Entry>)
    requires Sound(states)
    ensures Sound(ApplyAll(states, owner, now, entries))
  {
    if entries != [] {
      ApplyAllStaysSound(states, owner, now, entries[..|entries| - 1]);
    }
  }

  // ---- Server operations and what they emit ----

  datatype Operation =
    | Update(owner: Owner, entries: seq<Entry>, at: real)
    | Disconnect(owner: Owner, at: real)
    | Prune(timeout: real, at: real)

  function After(states: States, op: Operation): States {
    match op
    case Update(owner, entries, now) => ApplyAll(states, owner, now, entries)
    case Disconnect(owner, now) => Sweep(states, Owned(states, owner), now)
    case Prune(timeout, now) => Sweep(states, Stale(states, now, timeout), now)
  }

  function Removals(states: States, gone: set<ClientId>): set<Entry> {
    set c | c in gone && c in states :: Removal(states[c].entry)
  }

  /** The entries an operation broadcasts, as a set: peers may receive them in any order. */
  function Emitted(states: States, op: Operation): set<Entry> {
    match op
    case Update(owner, entries, now) => set e | e in Accepted(states, owner, now, entries)
    case Disconnect(owner, _) => Removals(states, Owned(states, owner))
    case Prune(timeout, now) => Removals(states, Stale(states, now, timeout))
  }

  function AfterAll(states: States, ops: seq<Operation>): States {
    if ops == [] then states else After(AfterAll(states, ops[..|ops| - 1]), ops[|ops| - 1])
  }

  function EmittedBy(states: States, ops: seq<Operation>): set<Entry> {
    if ops == [] then {}
    else EmittedBy(states, ops[..|ops| - 1]) + Emitted(AfterAll(states, ops[..|ops| - 1]), ops[|ops| - 1])
  }

  function Snapshot(states: States): set<Entry> {
    set c | c in Active(states) :: Active(states)[c]
  }

  // ---- A peer ----

  /** What a peer knows; it merges by the same rule, without owners or timestamps. */
  function PeerApply(peer: map<ClientId, Entry>, e: Entry): map<ClientId, Entry> {
    if Below(PeerMark(peer, e.client), MarkOf(e)) then peer[e.client := e] else peer
  }

  function PeerMark(peer: map<ClientId, Entry>, c: ClientId): Mark {
    if c in peer then MarkOf(peer[c]) else UNKNOWN
  }

  function Receive(received: seq<Entry>): map<ClientId, Entry> {
    if received == [] then map[]
    else PeerApply(Receive(received[..|received| - 1]), received[|received| - 1])
  }

  function PeerActive(peer: map<ClientId, Entry>): map<ClientId, Entry> {
    map c | c in peer && peer[c].state.Some? :: peer[c]
  }

  lemma {:induction false} PeerHoldsLargest(received: seq<Entry>)
    ensures forall e :: e in received ==> AtMost(MarkOf(e), PeerMark(Receive(received), e.client))
    ensures forall c :: c in Receive(received) ==>
                          var e := Receive(received)[c]; e in received && e.client == c && Below(UNKNOWN, MarkOf(e))
  {
    if received != [] {
      var before, last := received[..|received| - 1], received[|received| - 1];
      PeerHoldsLargest(before);
      assert received == before + [last];
      forall c | c in Receive(received)
        ensures var e := Receive(received)[c]; e in received && e.client == c && Below(UNKNOWN, MarkOf(e))
      {
        if c in Receive(before) && Receive(before)[c] == Receive(received)[c] {
          assert Receive(before)[c] in before;
        }
      }
    }
  }

  /**
   How entries the server has sent relate to its states: none is ahead, one
   that is level is the server's own, and a client is either mentioned by its
   latest entry or not at all.
   */
  ghost predicate Trails(sent: set<Entry>, states: States) {
    && (forall e :: e in sent ==> e.client in states && AtMost(MarkOf(e), MarkOf(states[e.client].entry)))
    && (forall e :: e in sent && e.client in states && MarkOf(e) == MarkOf(states[e.client].entry) ==>
                      e == states[e.client].entry)
    && (forall c :: c in states ==> states[c].entry in sent || forall e :: e in sent ==> e.client != c)
  }

  /** Every active client is mentioned. */
  ghost predicate Covers(sent: set<Entry>, states: States) {
    forall c :: c in states && states[c].entry.state.Some? ==> states[c].entry in sent
  }

  lemma SnapshotCovers(sent: set<Entry>, states: States)
    requires Sound(states) && Trails(sent, states)
    ensures Trails(sent + Snapshot(states), states) && Covers(sent + Snapshot(states), states)
  {
    forall c | c in states && states[c].entry.state.Some? ensures states[c].entry in Snapshot(states) {
      assert Active(states)[c] == states[c].entry;
    }
  }

  lemma ApplyOneTrails(states: States, owner: Owner, now: real, e: Entry, sent: set<Entry>)
    requires Sound(states) && Trails(sent, states)
    ensures var sent' := sent + (if ShouldApply(states, e) then {e} else {});
            && Trails(sent', ApplyOne(states, owner, now, e))
            && (Covers(sent, states) ==> Covers(sent', ApplyOne(states, owner, now, e)))
  {
    ShouldApplyIff(states, e);
  }

  lemma {:induction false} UpdateTrails(states: States, owner: Owner, now: real, entries: seq<Entry>, sent: set<Entry>)
    requires Sound(states) && Trails(sent, states)
    ensures var sent' := sent + set e | e in Accepted(states, owner, now, entries);
            && Trails(sent', ApplyAll(states, owner, now, entries))
            && (Covers(sent, states) ==> Covers(sent', ApplyAll(states, owner, now, entries)))
  {
    if entries == [] {
      assert sent + (set e | e in Accepted(states, owner, now, entries)) == sent;
    } else {
      var before, last := entries[..|entries| - 1], entries[|entries| - 1];
      var mid := ApplyAll(states, owner, now, before);
      var sent' := sent + set e | e in Accepted(states, owner, now, before);
      UpdateTrails(states, owner, now, before, sent);
      ApplyAllStaysSound(states, owner, now, before);
      ApplyOneTrails(mid, owner, now, last, sent');
      assert sent + (set e | e in Accepted(states, owner, now, entries))
          == sent' + (if ShouldApply(mid, last) then {last} else {});
    }
  }

  lemma SweepTrails(states: States, gone: set<ClientId>, now: real, sent: set<Entry>)
    requires Sound(states) && Trails(sent, states)
    requires forall c :: c in gone ==> c in states && states[c].entry.state.Some?
    ensures var sent' := sent + Removals(states, gone);
            && Sound(Sweep(states, gone, now))
            && Trails(sent', Sweep(states, gone, now))
            && (Covers(sent, states) ==> Covers(sent', Sweep(states, gone, now)))
  {
    var states' := Sweep(states, gone, now);
    forall e | e in sent && e.client in gone ensures Below(MarkOf(e), MarkOf(states'[e.client].entry)) {
      assert AtMost(MarkOf(e), MarkOf(states[e.client].entry));
    }
    forall c | c in gone ensures states'[c].entry in Removals(states, gone) {
      assert states'[c].entry == Removal(states[c].entry);
    }
  }

  lemma AfterTrails(states: States, op: Operation, sent: set<Entry>)
    requires Sound(states) && Trails(sent, states)
    ensures Sound(After(states, op))
    ensures Trails(sent + Emitted(states, op), After(states, op))
    ensures Covers(sent, states) ==> Covers(sent + Emitted(states, op), After(states, op))
  {
    match op {
      case Update(owner, entries, now) =>
        ApplyAllStaysSound(states, owner, now, entries);
        UpdateTrails(states, owner, now, entries, sent);
      case Disconnect(owner, now) => SweepTrails(states, Owned(states, owner), now, sent);
      case Prune(timeout, now) => SweepTrails(states, Stale(states, now, timeout), now, sent);
    }
  }

  lemma {:induction false} AfterAllTrails(states: States, ops: seq<Operation>, sent: set<Entry>)
    requires Sound(states) && Trails(sent, states)
    ensures Sound(AfterAll(states, ops))
    ensures Trails(sent + EmittedBy(states, ops), AfterAll(states, ops))
    ensures Covers(sent, states) ==> Covers(sent + EmittedBy(states, ops), AfterAll(states, ops))
  {
    if ops == [] {
      assert sent + EmittedBy(states, ops) == sent;
    } else {
      var before, last := ops[..|ops| - 1], ops[|ops| - 1];
      AfterAllTrails(states, before, sent);
      AfterTrails(AfterAll(states, before), last, sent + EmittedBy(states, before));
      assert sent + EmittedBy(states, ops)
          == sent + EmittedBy(states, before) + Emitted(AfterAll(states, before), last);
    }
  }

  /** A peer that heard everything that was sent sees exactly the server's active entries. */
  lemma CoveredPeerAgrees(states: States, sent: set<Entry>, received: seq<Entry>)
    requires Sound(states) && Trails(sent, states) && Covers(sent, states)
    requires forall e :: e in received <==> e in sent
    ensures PeerActive(Receive(received)) == Active(states)
  {
    var peer := Receive(received);
    PeerHoldsLargest(received);
    forall c ensures c in PeerActive(peer) <==> c in Active(states)
             ensures c in Active(states) ==> c in peer && peer[c] == states[c].entry
    {
      assert c in peer ==> peer[c] in received && peer[c].client == c;
      if c in states && states[c].entry in sent {
        var e := states[c].entry;
        assert AtMost(MarkOf(e), PeerMark(peer, c));
        assert Below(UNKNOWN, MarkOf(e));
        assert c in peer && peer[c] in sent;
        assert AtMost(MarkOf(peer[c]), MarkOf(e));
        assert peer[c] == e;
      }
    }
  }

  /**
   Mirroring. A connection joins a room and receives every later broadcast; a
   moment later (after the operations `early`) it is sent a snapshot of the
   active entries, while broadcasts go on. Starting blank and receiving all of
   this in any order, with any duplication, it ends with exactly the server's
   active entries.
   */
  lemma PeersMirrorServer(joinedAt: States, early: seq<Operation>, late: seq<Operation>, received: seq<Entry>)
    requires Sound(joinedAt)
    requires var snapshotAt := AfterAll(joinedAt, early);
             forall e :: e in received <==>
               e in EmittedBy(joinedAt, early) + Snapshot(snapshotAt) + EmittedBy(snapshotAt, late)
    ensures PeerActive(Receive(received)) == Active(AfterAll(AfterAll(joinedAt, early), late))
  {
    var snapshotAt := AfterAll(joinedAt, early);
    AfterAllTrails(joinedAt, early, {});
    assert {} + EmittedBy(joinedAt, early) == EmittedBy(joinedAt, early);
    SnapshotCovers(EmittedBy(joinedAt, early), snapshotAt);
    var sent := EmittedBy(joinedAt, early) + Snapshot(snapshotAt);
    AfterAllTrails(snapshotAt, late, sent);
    CoveredPeerAgrees(AfterAll(snapshotAt, late), sent + EmittedBy(snapshotAt, late), received);
  }

  /** No operation but discarding the session ever takes a client's mark back. */
  lemma MarksNeverDecrease(states: States, op: Operation, c: ClientId)
    ensures AtMost(MarkIn(states, c), MarkIn(After(states, op), c))
  {
    match op {
      case Update(owner, entries, now) => ApplyAllTakesLargest(states, owner, now, entries, c);
      case Disconnect(_, _) =>
      case Prune(_, _) =>
    }
  }

  /** Disconnecting silences exactly the owner's clients: they stop being active, nobody else changes. */
  lemma DisconnectRemovesExactlyOwned(states: States, owner: Owner, now: real, c: ClientId)
    requires c in states
    ensures var after := After(states, Disconnect(owner, now));
            && (c in Active(after) <==> c in Active(states) && states[c].owner != Some(owner))
            && (c in Active(after) ==> after[c] == states[c])
  {
  }

  /** Pruning silences exactly the live clients whose last heartbeat is too long ago; nobody else changes. */
  lemma PruneRemovesExactlySilent(states: States, timeout: real, now: real, c: ClientId)
    requires c in states
    ensures var after := After(states, Prune(timeout, now));
            && (c in Active(after) <==> c in Active(states) && now - states[c].lastSeen <= timeout)
            && (c in Active(after) ==> after[c] == states[c])
            && (c !in Active(states) ==> after[c] == states[c])
  {
  }

  /** Whoever is silenced keeps its clock, loses its owner, and is broadcast as a null state, once. */
  lemma SilencedClientsAreRemoved(states: States, op: Operation, c: ClientId)
    requires Sound(states) && c in Active(states) && !op.Update? && c !in Active(After(states, op))
    ensures After(states, op)[c] == Stored(Entry(c, states[c].entry.clock, None, "null"), None, op.at)
    ensures Entry(c, states[c].entry.clock, None, "null") in Emitted(states, op)
  {
    assert states[c].entry.client == c;
  }

  /** And nothing else is broadcast by a disconnect or by pruning. */
  lemma OnlySilencedAreBroadcast(states: States, op: Operation, e: Entry)
    requires Sound(states) && !op.Update? && e in Emitted(states, op)
    ensures e.client in Active(states) && e.client !in Active(After(states, op))
    ensures e == Entry(e.client, states[e.client].entry.clock, None, "null")
  {
  }

  /** An accepted active state belongs to whoever sent it and counts as a heartbeat; a removal belongs to nobody. */
  lemma AcceptedStateIsStored(states: States, owner: Owner, now: real, e: Entry)
    ensures ShouldApply(states, e) ==>
              ApplyOne(states, owner, now, e) ==
                states[e.client := Stored(e, if e.state.Some? then Some(owner) else None, now)]
    ensures !ShouldApply(states, e) ==> ApplyOne(states, owner, now, e) == states
  {
  }

  /**
   Each entry of an update is broadcast exactly when it is strictly ahead of
   what the entries before it had left, and then it is what is stored.
   */
  lemma {:induction false} EntryIsBroadcastIff(states: States, owner: Owner, now: real, before: seq<Entry>, e: Entry)
    ensures var known := ApplyAll(states, owner, now, before);
            && Accepted(states, owner, now, before + [e]) == Accepted(states, owner, now, before) +
                 (if Below(MarkIn(known, e.client), MarkOf(e)) then [e] else [])
            && ApplyAll(states, owner, now, before + [e]) ==
                 (if Below(MarkIn(known, e.client), MarkOf(e))
                  then known[e.client := Stored(e, if e.state.Some? then Some(owner) else None, now)] else known)
  {
    assert (before + [e])[..|before|] == before;
    ShouldApplyIff(ApplyAll(states, owner, now, before), e);
  }
}
