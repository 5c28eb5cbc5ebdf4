/**
 Endpoints that nothing interrupts, as runs of the room protocol: they end in
 the outcomes of module StoredSession that the methods of SessionEndpoints
 promise.
 */
module EndpointRuns {
  import opened Prelude
  import opened LiveDocument
  import opened StoredSession
  import opened DocumentStorage
  import opened Membership
  import opened RoomRegistry
  import opened RoomProtocol

  /** Nobody is at work: the gate is free, no storage operation runs, and a populated room is loaded. */
  ghost predicate Quiet(s: State) {
    && s.gate == Open && s.storage.op.Idle? && !s.storage.slot.loading
    && (s.registry.room != [] ==> s.storage.slot.live.Some?)
  }

  function View(s: Storage): Stored {
    Stored(s.row, s.checkpoint, if s.slot.live.Some? then Some(s.slot.live.value.doc) else None)
  }

  /** What a request leaves alone. */
  predicate SameRoom(s: State, r: State) {
    r.row == s.row && r.registry == s.registry && r.conns == s.conns
  }

  /** A request without the authority to edit changes nothing at all. */
  lemma UninterruptedRefusal(s: State, request: Request) returns (events: seq<Event>)
    requires Quiet(s) && !MayEdit(s.row, request.user)
    ensures Run(s, events) == Some(s)
  {
    var r;
    events, r := Advance(s, [], s, EnterRequest(request));
    events, r := Advance(s, events, r, Authorize);
    assert r == s;
  }

  /** The load at the start of every gated request. */
  lemma UninterruptedLoad(s: State, events: seq<Event>, r: State) returns (events': seq<Event>, r': State)
    requires Run(s, events) == Some(r) && r.storage.op.Idle? && !r.storage.slot.loading
    requires r.gate.Http? && r.gate.point.Loading?
    ensures Run(s, events') == Some(r') && SameRoom(r, r') && r'.gate == r.gate.(point := Acting)
    ensures r'.storage.op.Idle? && !r'.storage.slot.loading
    ensures r'.storage.slot.live.Some? && r'.storage.slot.live.value.doc == r.storage.Held()
    ensures r'.storage.row == r.storage.row && r'.storage.checkpoint == r.storage.checkpoint
    ensures r'.storage.commits == r.storage.commits && r'.applied == r.applied
  {
    events', r' := Advance(s, events, r, BeginLoad);
    if r.storage.slot.live.None? {
      events', r' := Advance(s, events', r', RowRead);
      events', r' := Advance(s, events', r', CheckpointRead(false));
    }
  }

  /** From the gate to the point where the document is loaded: `LoadFromStorage`. */
  lemma UninterruptedEntry(s: State, request: Request) returns (events: seq<Event>, r: State)
    requires Quiet(s) && MayEdit(s.row, request.user)
    ensures Run(s, events) == Some(r) && SameRoom(s, r)
    ensures r.gate == Http(request, Acting, s.registry.room != []) && r.storage.op.Idle? && !r.storage.slot.loading
    ensures r.storage.slot.live.Some? && r.storage.slot.live.value.doc == s.storage.Held()
    ensures r.storage.row == s.storage.row && r.storage.checkpoint == s.storage.checkpoint
    ensures r.storage.commits == s.storage.commits && r.applied == s.applied
  {
    events, r := Advance(s, [], s, EnterRequest(request));
    events, r := Advance(s, events, r, Authorize);
    events, r := UninterruptedLoad(s, events, r);
  }

  /** A Redis write on behalf of the gate holder, from its start to its end. */
  lemma UninterruptedWrite(s: State, events: seq<Event>, r: State, accepts: bool)
    returns (events': seq<Event>, r': State)
    requires Run(s, events) == Some(r) && r.gate.Http? && r.gate.point.Settling?
    requires r.storage.op.Writing? && r.storage.op.gated && r.storage.slot.live.Some? && !r.storage.slot.loading
    requires r.storage.op.generation == r.storage.slot.live.value.meta.generation
    ensures Run(s, events') == Some(r') && SameRoom(r, r') && r'.gate == Open
    ensures r'.storage.op.Idle? && !r'.storage.slot.loading && r'.storage.row == r.storage.row
    ensures r'.storage.checkpoint == if accepts then Some(r.storage.op.state) else r.storage.checkpoint
    ensures r'.storage.slot.live.None? <==> r.storage.op.evict && accepts
    ensures r'.storage.slot.live.Some? ==> r'.storage.slot.live.value.doc == r.storage.slot.live.value.doc
    ensures r'.storage.commits == r.storage.commits && r'.applied == r.applied
  {
    if accepts {
      events', r' := Advance(s, events, r, CheckpointWritten);
      events', r' := Advance(s, events', r', CheckpointRecorded);
    } else {
      events', r' := Advance(s, events, r, CheckpointFails);
    }
  }

  /** From there to the end of a request that checkpoints: `Settle`, or `EvictIfEmpty` of an empty room. */
  lemma UninterruptedSettling(s: State, events: seq<Event>, r: State, accepts: bool)
    returns (events': seq<Event>, r': State)
    requires Run(s, events) == Some(r) && r.storage.op.Idle? && r.storage.slot.live.Some? && !r.storage.slot.loading
    requires r.gate.Http? && r.gate.point.Settling? && WantsCheckpoint(r.gate)
    ensures Run(s, events') == Some(r') && SameRoom(r, r') && r'.gate == Open
    ensures r'.storage.op.Idle? && !r'.storage.slot.loading && r'.storage.row == r.storage.row
    ensures r'.storage.checkpoint == if accepts then Some(r.storage.Held()) else r.storage.checkpoint
    ensures r'.storage.slot.live.None? <==> !r.gate.crowded && accepts
    ensures r'.storage.slot.live.Some? ==> r'.storage.slot.live.value.doc == r.storage.Held()
    ensures r'.storage.commits == r.storage.commits && r'.applied == r.applied
  {
    events', r' := Advance(s, events, r, BeginCheckpoint);
    events', r' := UninterruptedWrite(s, events', r', accepts);
  }

  lemma UninterruptedMerge(s: State, events: seq<Event>, r: State) returns (events': seq<Event>, r': State)
    requires Run(s, events) == Some(r) && r.storage.op.Idle? && r.storage.slot.live.Some? && !r.storage.slot.loading
    requires r.gate.Http? && r.gate.point.Acting? && r.gate.request.Save? && r.gate.request.update.Some?
    ensures Run(s, events') == Some(r') && SameRoom(r, r') && r'.gate == r.gate.(point := Saving)
    ensures r'.storage.op == Committing(r.storage.Held() + r.gate.request.update.value) && !r'.storage.slot.loading
    ensures r'.storage.slot.live.Some? && r'.storage.slot.live.value.doc == r'.storage.op.state
    ensures r'.storage.row == r.storage.row && r'.storage.checkpoint == r.storage.checkpoint
    ensures r'.storage.commits == r.storage.commits
    ensures r'.applied == r.applied + [Applied(r.gate.request.user, r.gate.request.update.value, r.row)]
  {
    events', r' := Advance(s, events, r, Act);
    events', r' := Advance(s, events', r', BeginSave);
  }

  /** The merge of a save, its commit and the metadata write. */
  lemma UninterruptedCommit(s: State, events: seq<Event>, r: State) returns (events': seq<Event>, r': State)
    requires Run(s, events) == Some(r) && r.storage.op.Idle? && r.storage.slot.live.Some? && !r.storage.slot.loading
    requires r.gate.Http? && r.gate.point.Acting? && r.gate.request.Save? && r.gate.request.update.Some?
    ensures Run(s, events') == Some(r') && SameRoom(r, r') && r'.storage.op.Idle? && !r'.storage.slot.loading
    ensures r'.gate == r.gate.(point := Settling)
    ensures r'.storage.row == Some(r.storage.Held() + r.gate.request.update.value)
    ensures r'.storage.slot.live.Some? && r'.storage.slot.live.value.doc == r'.storage.row.value
    ensures r'.storage.checkpoint == r.storage.checkpoint
    ensures r'.storage.commits == r.storage.commits + [r'.storage.row.value]
    ensures r'.applied == r.applied + [Applied(r.gate.request.user, r.gate.request.update.value, r.row)]
  {
    events', r' := UninterruptedMerge(s, events, r);
    events', r' := Advance(s, events', r', SaveCommits);
    events', r' := Advance(s, events', r', SaveRecorded);
  }

  /** `SaveSessionDocument` with a state that decodes and a commit that succeeds. */
  lemma UninterruptedSave(s: State, user: User, update: Doc, accepts: bool) returns (events: seq<Event>, r: State)
    requires Quiet(s) && MayEdit(s.row, user)
    ensures Run(s, events) == Some(r) && SameRoom(s, r) && Quiet(r)
    ensures View(r.storage) == AfterSave(View(s.storage), update, s.registry.room != [], accepts)
    ensures r.storage.commits == s.storage.commits + [s.storage.Held() + update]
    ensures r.applied == s.applied + [Applied(user, update, s.row)]
  {
    events, r := UninterruptedEntry(s, Save(user, Some(update)));
    events, r := UninterruptedCommit(s, events, r);
    events, r := UninterruptedSettling(s, events, r, accepts);
  }

  /** The same when the state does not decode, or when it does and the commit raises. */
  lemma UninterruptedFailedSave(s: State, user: User, update: Option<Doc>) returns (events: seq<Event>, r: State)
    requires Quiet(s) && MayEdit(s.row, user)
    ensures Run(s, events) == Some(r) && SameRoom(s, r) && Quiet(r) && r.storage.slot.live.Some?
    ensures View(r.storage) == AfterFailedSave(View(s.storage), update)
  {
    events, r := UninterruptedEntry(s, Save(user, update));
    if update.Some? {
      events, r := UninterruptedMerge(s, events, r);
      events, r := Advance(s, events, r, SaveFails);
    } else {
      events, r := Advance(s, events, r, Act);
    }
  }

  /** `RestoreSnapshot`, with the edit it makes, or None when the text is the same already. */
  lemma UninterruptedRestore(s: State, user: User, edit: Option<Doc>, accepts: bool)
    returns (events: seq<Event>, r: State)
    requires Quiet(s) && MayEdit(s.row, user)
    ensures Run(s, events) == Some(r) && SameRoom(s, r) && Quiet(r)
    ensures View(r.storage) == AfterRestore(View(s.storage), edit, s.registry.room != [], accepts)
    ensures r.applied == s.applied + (if edit.Some? then [Applied(user, edit.value, s.row)] else [])
  {
    events, r := UninterruptedEntry(s, Restore(user, edit));
    events, r := Advance(s, events, r, Act);
    assert r.storage.Held() == s.storage.Held() + edit.GetOr({});
    events, r := UninterruptedSettling(s, events, r, accepts);
  }

  lemma UninterruptedLook(s: State, request: Request) returns (events: seq<Event>, r: State)
    requires Quiet(s) && MayEdit(s.row, request.user) && (request.TakeSnapshot? || request.RunCode?)
    ensures Run(s, events) == Some(r) && SameRoom(s, r) && r.storage.op.Idle? && !r.storage.slot.loading
    ensures r.gate == Http(request, Settling, s.registry.room != [])
    ensures r.storage.row == s.storage.row && r.storage.checkpoint == s.storage.checkpoint
    ensures r.storage.slot.live.Some? && r.storage.slot.live.value.doc == s.storage.Held()
  {
    events, r := UninterruptedEntry(s, request);
    events, r := Advance(s, events, r, Act);
  }

  /** `CreateSnapshot` and `RunDocument`: the document is read, and evicted again if nobody is connected. */
  lemma UninterruptedReading(s: State, request: Request, accepts: bool) returns (events: seq<Event>, r: State)
    requires Quiet(s) && MayEdit(s.row, request.user) && (request.TakeSnapshot? || request.RunCode?)
    ensures Run(s, events) == Some(r) && SameRoom(s, r) && Quiet(r)
    ensures View(r.storage) == AfterReading(View(s.storage), s.registry.room != [], accepts)
  {
    events, r := UninterruptedLook(s, request);
    if s.registry.room != [] {
      events, r := Advance(s, events, r, Release);
    } else {
      events, r := UninterruptedSettling(s, events, r, accepts);
    }
  }

  /** A request that raises after the load gives the gate back and leaves the document in memory. */
  lemma UninterruptedRaise(s: State, request: Request) returns (events: seq<Event>, r: State)
    requires Quiet(s) && MayEdit(s.row, request.user)
    ensures Run(s, events) == Some(r) && SameRoom(s, r) && Quiet(r)
    ensures View(r.storage) == AfterFailedSave(View(s.storage), None) && r.applied == s.applied
  {
    events, r := UninterruptedEntry(s, request);
    events, r := Advance(s, events, r, Abort);
  }
}
