/** The awareness store as the object presence.py updates in place. */
module AwarenessStore {
  import opened Prelude
  import opened Awareness

  ghost predicate Ascending(order: seq<ClientId>) {
    forall i, j :: 0 <= i < j < |order| ==> order[i] < order[j]
  }

  /** Insert a client into an ascending list. */
  function Insert(order: seq<ClientId>, c: ClientId): (r: seq<ClientId>)
    requires Ascending(order) && c !in order
    ensures Ascending(r)
    ensures forall x :: x in r <==> x in order || x == c
  {
    if order == [] || c < order[0] then [c] + order
    else
      var rest := Insert(order[1..], c);
      assert forall x :: x in rest ==> order[0] < x by {
        assert forall x :: x in order[1..] ==> order[0] < x;
      }
      assert forall k :: 0 <= k < |rest| ==> rest[k] in rest;
      [order[0]] + rest
  }

  method Sorted(clients: set<ClientId>) returns (order: seq<ClientId>)
    ensures Ascending(order)
    ensures forall c :: c in order <==> c in clients
  {
    order := [];
    var todo := clients;
    while todo != {}
      invariant todo <= clients && Ascending(order)
      invariant forall c :: c in order <==> c in clients - todo
      decreases todo
    {
      var c :| c in todo;
      order := Insert(order, c);
      todo := todo - {c};
    }
  }

  class Store {
    var sessions: map<string, States>
    const staleTimeout: real

    constructor (timeout: real)
      ensures sessions == map[] && staleTimeout == timeout
    {
      sessions := map[];
      staleTimeout := timeout;
    }

    function StatesOf(session: string): States
      reads this
    {
      if session in sessions then sessions[session] else map[]
    }

    /** Apply entries in order and return the accepted ones, in order, for broadcasting. */
    method ApplyUpdate(session: string, owner: Owner, entries: seq<Entry>, now: real) returns (accepted: seq<Entry>)
      modifies this
      ensures sessions == old(sessions)[session := ApplyAll(old(StatesOf(session)), owner, now, entries)]
      ensures accepted == Accepted(old(StatesOf(session)), owner, now, entries)
    {
      var states := StatesOf(session);
      accepted := [];
      var i := 0;
      while i < |entries|
        invariant 0 <= i <= |entries|
        invariant states == ApplyAll(old(StatesOf(session)), owner, now, entries[..i])
        invariant accepted == Accepted(old(StatesOf(session)), owner, now, entries[..i])
        invariant sessions == old(sessions)
      {
        var entry := entries[i];
        assert entries[..i + 1][..i] == entries[..i];
        var current := if entry.client in states then Some(states[entry.client]) else None;
        var currentClock := if current.Some? then current.value.entry.clock else 0;
        var currentIsActive := current.Some? && current.value.entry.state.Some?;
        var isRemoval := entry.state.None?;
        i := i + 1;
        if !(currentClock < entry.clock || (currentClock == entry.clock && isRemoval && currentIsActive)) {
          continue;
        }
        states := states[entry.client := Stored(entry, if isRemoval then None else Some(owner), now)];
        accepted := accepted + [entry];
      }
      assert entries[..i] == entries;
      sessions := sessions[session := states];
    }

    /** The active entries, in ascending client order. */
    method ActiveEntries(session: string) returns (entries: seq<Entry>)
      requires Sound(StatesOf(session))
      ensures forall e :: e in entries <==> e in Snapshot(StatesOf(session))
      ensures forall i, j :: 0 <= i < j < |entries| ==> entries[i].client < entries[j].client
    {
      var active := Active(StatesOf(session));
      var order := Sorted(active.Keys);
      entries := seq(|order|, i requires 0 <= i < |order| => active[order[i]]);
      assert forall i :: 0 <= i < |order| ==> order[i] in order && entries[i].client == order[i];
      forall e ensures e in entries <==> e in Snapshot(StatesOf(session)) {
        if e in Snapshot(StatesOf(session)) {
          var c :| c in active && active[c] == e;
          var i :| 0 <= i < |order| && order[i] == c;
          assert entries[i] == e;
        }
      }
    }

    /** Mark an owner's live clients removed, and return the removals to broadcast, one each. */
    method RemoveOwner(session: string, owner: Owner, now: real) returns (removed: seq<Entry>)
      modifies this
      ensures StatesOf(session) == After(old(StatesOf(session)), Disconnect(owner, now))
      ensures forall other :: other != session ==> StatesOf(other) == old(StatesOf(other))
      ensures forall e :: e in removed <==> e in Emitted(old(StatesOf(session)), Disconnect(owner, now))
      ensures |removed| == |Owned(old(StatesOf(session)), owner)|
      ensures forall c :: c in old(StatesOf(session)) ==>
                var before, after := old(StatesOf(session))[c], StatesOf(session);
                c in after &&
                after[c] == if before.entry.state.None? || before.owner != Some(owner) then before
                            else Stored(Entry(before.entry.client, before.entry.clock, None, "null"), None, now)
    {
      removed := SweepOut(session, Owned(StatesOf(session), owner), now);
    }

    /** Mark clients without a recent heartbeat removed, and return the removals to broadcast, one each. */
    method PruneStale(session: string, now: real) returns (removed: seq<Entry>)
      modifies this
      ensures StatesOf(session) == After(old(StatesOf(session)), Prune(staleTimeout, now))
      ensures forall other :: other != session ==> StatesOf(other) == old(StatesOf(other))
      ensures forall e :: e in removed <==> e in Emitted(old(StatesOf(session)), Prune(staleTimeout, now))
      ensures |removed| == |Stale(old(StatesOf(session)), now, staleTimeout)|
      ensures forall c :: c in old(StatesOf(session)) ==>
                var before, after := old(StatesOf(session))[c], StatesOf(session);
                c in after &&
                after[c] == if before.entry.state.None? || now - before.lastSeen <= staleTimeout then before
                            else Stored(Entry(before.entry.client, before.entry.clock, None, "null"), None, now)
    {
      removed := SweepOut(session, Stale(StatesOf(session), now, staleTimeout), now);
    }

    /** The loop both of them share, over the clients that pass their test. */
    method SweepOut(session: string, gone: set<ClientId>, now: real) returns (removed: seq<Entry>)
      requires gone <= StatesOf(session).Keys
      modifies this
      ensures StatesOf(session) == Sweep(old(StatesOf(session)), gone, now)
      ensures forall other :: other != session ==> StatesOf(other) == old(StatesOf(other))
      ensures forall e :: e in removed <==> e in Removals(old(StatesOf(session)), gone)
      ensures |removed| == |gone|
    {
      var before := StatesOf(session);
      var states := before;
      removed := [];
      var todo := gone;
      while todo != {}
        invariant todo <= gone
        invariant states == Sweep(before, gone - todo, now)
        invariant forall e :: e in removed <==> e in Removals(before, gone - todo)
        invariant |removed| + |todo| == |gone|
        invariant sessions == old(sessions)
        decreases todo
      {
        var c :| c in todo;
        var removal := Removal(states[c].entry);
        assert gone - (todo - {c}) == (gone - todo) + {c};
        assert Removals(before, (gone - todo) + {c}) == Removals(before, gone - todo) + {removal};
        states := states[c := Stored(removal, None, now)];
        removed := removed + [removal];
        todo := todo - {c};
      }
      assert gone - todo == gone;
      if session in sessions {
        sessions := sessions[session := states];
      }
    }

    /** The last connection has left: every client is unknown again, at clock zero, and other rooms are not touched. */
    method DiscardSession(session: string)
      modifies this
      ensures StatesOf(session) == map[] && Snapshot(StatesOf(session)) == {}
      ensures forall c :: MarkIn(StatesOf(session), c) == UNKNOWN
      ensures forall other :: other != session ==> StatesOf(other) == old(StatesOf(other))
    {
      sessions := sessions - {session};
    }
  }
}
