/**
 What connections, maintenance and membership changes do when nothing
 interrupts them, as runs of the room protocol: every phase is reached, and
 ends where the source says.
 */
module ConnectionRuns {
  import opened Prelude
  import opened Runs
  import opened LiveDocument
  import opened StoredSession
  import opened DocumentStorage
  import opened Membership
  import opened RoomRegistry
  import opened RoomProtocol
  import opened RoomInvariants
  import opened RoomData
  import opened RoomTheorems
  import opened EndpointRuns

  ghost predicate Ready(s: State) {
    AuthInv(s) && ControlInv(s) && Quiet(s)
  }

  // ---- Frames ----

  /** The write path, from the frame on the wire: an unfenced editor's update is in the document and in the log. */
  lemma UninterruptedEdit(s: State, c: ConnId, ops: Doc) returns (events: seq<Event>, r: State)
    requires AuthInv(s) && ControlInv(s) && s.gate == Open && At(s, c, Serving)
    requires Failure(s.registry, s.conns[c].user, c).None? && s.conns[c].role != Viewer
    ensures events == [Receive(c, Update(Some(ops))), Handle(c), ApplyFrame(c)] && Run(s, events) == Some(r)
    ensures r.storage.Held() == s.storage.Held() + ops
    ensures r.applied == s.applied + [Applied(s.conns[c].user, ops, s.row)]
    ensures r.conns == s.conns && r.registry == s.registry && r.gate == Open && r.row == s.row
  {
    events, r := UninterruptedDelivery(s, c, Some(ops));
    StepsKeepInv(s, [Receive(c, Update(Some(ops))), Handle(c)]);
    EditLands(s, r, c, ops);
    events, r := Advance(s, events, r, ApplyFrame(c));
  }

  lemma EditLands(s: State, r: State, c: ConnId, ops: Doc)
    requires At(s, c, Serving) && r == Goto(s, c, WaitingToApply(Some(ops)))
    requires AuthInv(r) && ControlInv(r) && r.gate == Open
    requires Failure(s.registry, s.conns[c].user, c).None? && s.conns[c].role != Viewer
    ensures var r' := Step(r, ApplyFrame(c));
            && r'.storage.Held() == s.storage.Held() + ops
            && r'.applied == s.applied + [Applied(s.conns[c].user, ops, s.row)]
            && r'.conns == s.conns && r'.registry == s.registry && r'.gate == Open && r'.row == s.row
  {
    CurrentFrameIsApplied(r, c, ops);
    assert Goto(r, c, Serving).conns == s.conns;
  }

  /** A viewer's update gets as far, and is then refused. */
  lemma UninterruptedDenial(s: State, c: ConnId, ops: Doc) returns (events: seq<Event>, r: State)
    requires AuthInv(s) && ControlInv(s) && s.gate == Open && At(s, c, Serving)
    requires Failure(s.registry, s.conns[c].user, c).None? && s.conns[c].role == Viewer
    ensures events == [Receive(c, Update(Some(ops))), Handle(c), ApplyFrame(c)] && Run(s, events) == Some(r)
    ensures r.storage == s.storage && r.applied == s.applied && r.registry == s.registry && At(r, c, Serving)
  {
    events, r := UninterruptedDelivery(s, c, Some(ops));
    StepsKeepInv(s, [Receive(c, Update(Some(ops))), Handle(c)]);
    StaleFrameIsRefused(r, c);
    events, r := Advance(s, events, r, ApplyFrame(c));
  }

  /** Asking for state is for everybody, and changes nothing. */
  lemma UninterruptedSync(s: State, c: ConnId) returns (events: seq<Event>)
    requires AuthInv(s) && ControlInv(s) && At(s, c, Serving) && Failure(s.registry, s.conns[c].user, c).None?
    ensures events == [Receive(c, AskState), Handle(c)] && Run(s, events) == Some(s)
  {
    var r;
    ConnectedMeansLive(s, c);
    assert Peek(s.storage) == s.storage;
    events, r := Advance(s, [], s, Receive(c, AskState));
    events, r := Advance(s, events, r, Handle(c));
    assert r.conns == s.conns;
  }

  lemma UninterruptedDelivery(s: State, c: ConnId, update: Option<Doc>) returns (events: seq<Event>, r: State)
    requires At(s, c, Serving) && Failure(s.registry, s.conns[c].user, c).None?
    ensures events == [Receive(c, Update(update)), Handle(c)] && Run(s, events) == Some(r)
    ensures r == Goto(s, c, WaitingToApply(update))
  {
    events, r := Advance(s, [], s, Receive(c, Update(update)));
    events, r := Advance(s, events, r, Handle(c));
    assert r.conns == s.conns[c := s.conns[c].(phase := WaitingToApply(update))];
  }

  lemma {:induction false} StepsKeepInv(s: State, events: seq<Event>)
    requires AuthInv(s) && ControlInv(s) && Run(s, events).Some?
    ensures AuthInv(Run(s, events).value) && ControlInv(Run(s, events).value)
    decreases |events|
  {
    if events != [] {
      StepKeepsAuth(s, events[0]);
      StepKeepsControl(s, events[0]);
      StepsKeepInv(Step(s, events[0]), events[1..]);
    }
  }

  /** A connection whose authorization is stale when it has joined or received a frame is revoked and on its way out. */
  lemma StaleConnectionsLeave(s: State, c: ConnId, e: Event, reason: Reason)
    requires Enabled(s, e) && (e == CheckJoined(c) || (e.Receive? && e.conn == c))
    requires Failure(s.registry, s.conns[c].user, c) == Some(reason)
    ensures At(Step(s, e), c, WaitingToLeave) && Step(s, e).storage == s.storage
    ensures Step(s, e).registry == s.registry.(revoked := s.registry.revoked[c := reason])
  {
  }

  /** A frame that was received before the revocation is dropped. */
  lemma RevokedFramesAreDropped(s: State, c: ConnId)
    requires Enabled(s, Handle(c)) && c in s.registry.revoked
    ensures Step(s, Handle(c)) == Goto(s, c, Serving)
  {
  }

  // ---- Arriving and leaving ----

  /** A member of an active session is served, in the room, with the role PostgreSQL shows and the whole document. */
  lemma UninterruptedConnect(s: State, c: ConnId, user: User) returns (events: seq<Event>, r: State)
    requires Ready(s) && c !in s.conns && s.row.active && user in s.row.members
    ensures Run(s, events) == Some(r) && Ready(r)
    ensures r.conns == s.conns[c := Conn(user, StampNow(s.registry, user), s.row.members[user], Serving)]
    ensures r.registry == s.registry.(room := s.registry.room + [Entry(c, user, s.row.members[user])],
                                      stamps := s.registry.stamps[c := StampNow(s.registry, user)])
    ensures Failure(r.registry, user, c).None?
    ensures r.storage.slot.live.Some? && r.storage.slot.live.value.doc == s.storage.Held()
    ensures r.storage.row == s.storage.row && r.storage.checkpoint == s.storage.checkpoint
    ensures r.row == s.row && r.applied == s.applied
  {
    events, r := UninterruptedAuthentication(s, c, user);
    events, r := UninterruptedJoin(s, events, r, c);
    events, r := UninterruptedGreeting(s, events, r, c);
    StepsKeepInv(s, events);
  }

  lemma UninterruptedAuthentication(s: State, c: ConnId, user: User) returns (events: seq<Event>, r: State)
    requires Ready(s) && c !in s.conns && s.row.active && user in s.row.members
    ensures Run(s, events) == Some(r)
    ensures var stamp := StampNow(s.registry, user);
            r == s.(conns := s.conns[c := Conn(user, stamp, s.row.members[user], WaitingToJoin)],
                    registry := Register(s.registry, c, stamp))
    ensures Failure(r.registry, user, c).None?
  {
    var stamp := StampNow(s.registry, user);
    FreshStampPasses(s.registry, user, c);
    events, r := Advance(s, [], s, Connect(c, user));
    events, r := Advance(s, events, r, ReadSession(c));
    events, r := Advance(s, events, r, ReadMember(c));
    events, r := Advance(s, events, r, RegisterStamp(c));
    assert r.conns == s.conns[c := Conn(user, stamp, s.row.members[user], WaitingToJoin)];
  }

  lemma UninterruptedJoin(s: State, events: seq<Event>, r: State, c: ConnId)
    returns (events': seq<Event>, r': State)
    requires Run(s, events) == Some(r) && Quiet(r) && At(r, c, WaitingToJoin)
    ensures Run(s, events') == Some(r') && Quiet(r')
    ensures r'.conns == r.conns[c := r.conns[c].(phase := Joined)]
    ensures r'.registry == Append(r.registry, Entry(c, r.conns[c].user, r.conns[c].role))
    ensures r'.storage.slot.live.Some? && r'.storage.slot.live.value.doc == r.storage.Held()
    ensures r'.storage.row == r.storage.row && r'.storage.checkpoint == r.storage.checkpoint
    ensures r'.row == r.row && r'.applied == r.applied
  {
    events', r' := Advance(s, events, r, EnterJoin(c));
    if r.registry.room == [] {
      events', r' := UninterruptedFirstLoad(s, events', r', c);
    }
  }

  lemma UninterruptedFirstLoad(s: State, events: seq<Event>, r: State, c: ConnId)
    returns (events': seq<Event>, r': State)
    requires Run(s, events) == Some(r) && r.gate == Joining(c) && c in r.conns
    requires r.storage.op.Idle? && !r.storage.slot.loading
    ensures Run(s, events') == Some(r') && Quiet(r')
    ensures r'.conns == r.conns[c := r.conns[c].(phase := Joined)]
    ensures r'.registry == Append(r.registry, Entry(c, r.conns[c].user, r.conns[c].role))
    ensures r'.storage.slot.live.Some? && r'.storage.slot.live.value.doc == r.storage.Held()
    ensures r'.storage.row == r.storage.row && r'.storage.checkpoint == r.storage.checkpoint
    ensures r'.row == r.row && r'.applied == r.applied
  {
    events', r' := Advance(s, events, r, BeginLoad);
    if r.storage.slot.live.None? {
      events', r' := Advance(s, events', r', RowRead);
      events', r' := Advance(s, events', r', CheckpointRead(false));
    }
  }

  lemma UninterruptedGreeting(s: State, events: seq<Event>, r: State, c: ConnId)
    returns (events': seq<Event>, r': State)
    requires Run(s, events) == Some(r) && Quiet(r) && At(r, c, Joined) && r.storage.slot.live.Some?
    requires Failure(r.registry, r.conns[c].user, c).None?
    ensures Run(s, events') == Some(r') && r' == Goto(r, c, Serving) && Quiet(r')
  {
    assert Peek(r.storage) == r.storage;
    events', r' := Advance(s, events, r, CheckJoined(c));
  }

  /** A stranger, or anybody once the session is closed, leaves no trace. */
  lemma UninterruptedRejection(s: State, c: ConnId, user: User) returns (events: seq<Event>)
    requires c !in s.conns && (!s.row.active || user !in s.row.members)
    ensures Run(s, events) == Some(s)
  {
    var r;
    events, r := Advance(s, [], s, Connect(c, user));
    events, r := Advance(s, events, r, ReadSession(c));
    if s.row.active {
      events, r := Advance(s, events, r, ReadMember(c));
    }
    assert r.conns == s.conns;
  }

  /** Neither does a connection whose first load fails, apart from the stores it could not read. */
  lemma FailedLoadDropsConnection(s: State, c: ConnId)
    requires AuthInv(s) && s.gate == Joining(c) && Enabled(s, RowReadFails)
    ensures var r := Step(s, RowReadFails);
            && c !in r.conns && c !in r.registry.stamps && c !in r.registry.revoked && r.gate == Open
            && r.registry.room == [] && r.storage.op.Idle? && !r.storage.slot.loading
            && r.storage.row == s.storage.row && r.storage.checkpoint == s.storage.checkpoint
  {
  }

  /** Leaving a room in which others stay changes nothing but the room. */
  lemma UninterruptedLeave(s: State, c: ConnId) returns (events: seq<Event>, r: State)
    requires Ready(s) && At(s, c, Serving) && Without(s.registry.room, c) != []
    ensures Run(s, events) == Some(r) && Quiet(r)
    ensures r.conns == s.conns - {c} && r.registry == Depart(s.registry, c)
    ensures r.storage == s.storage && r.row == s.row && r.applied == s.applied
  {
    ConnectedMeansLive(s, c);
    events, r := Advance(s, [], s, Disconnect(c));
    events, r := Advance(s, events, r, Leave(c));
    assert r.conns == s.conns - {c};
  }

  /** The last one out checkpoints the document, and takes it out of memory if Redis accepts it. */
  lemma UninterruptedLastLeave(s: State, c: ConnId, accepts: bool) returns (events: seq<Event>, r: State)
    requires Ready(s) && At(s, c, Serving) && Without(s.registry.room, c) == []
    ensures Run(s, events) == Some(r) && Quiet(r)
    ensures r.conns == s.conns - {c} && r.registry == Depart(s.registry, c) && r.row == s.row
    ensures View(r.storage) == Checkpointed(View(s.storage), false, accepts)
  {
    ConnectedMeansLive(s, c);
    events, r := Advance(s, [], s, Disconnect(c));
    events, r := Advance(s, events, r, Leave(c));
    assert r.conns == s.conns - {c};
    events, r := UninterruptedEviction(s, events, r, accepts);
  }

  lemma UninterruptedEviction(s: State, events: seq<Event>, r: State, accepts: bool)
    returns (events': seq<Event>, r': State)
    requires Run(s, events) == Some(r) && (r.gate.Leaving? || r.gate.Maintaining?)
    requires r.storage.op.Idle? && r.storage.slot.live.Some? && !r.storage.slot.loading && r.registry.room == []
    ensures Run(s, events') == Some(r') && Quiet(r') && SameRoom(r, r')
    ensures View(r'.storage) == Checkpointed(View(r.storage), false, accepts)
  {
    events', r' := Advance(s, events, r, BeginCheckpoint);
    events', r' := UninterruptedEvictingWrite(s, events', r', accepts);
  }

  lemma UninterruptedEvictingWrite(s: State, events: seq<Event>, r: State, accepts: bool)
    returns (events': seq<Event>, r': State)
    requires Run(s, events) == Some(r) && (r.gate.Leaving? || r.gate.Maintaining?) && r.registry.room == []
    requires r.storage.slot.live.Some? && !r.storage.slot.loading
    requires r.storage.op ==
               Writing(r.storage.slot.live.value.doc, r.storage.slot.live.value.meta.generation, true, true)
    ensures Run(s, events') == Some(r') && Quiet(r') && SameRoom(r, r')
    ensures View(r'.storage) == Checkpointed(View(r.storage), false, accepts)
  {
    if accepts {
      events', r' := Advance(s, events, r, CheckpointWritten);
      events', r' := Advance(s, events', r', CheckpointRecorded);
    } else {
      events', r' := Advance(s, events, r, CheckpointFails);
    }
  }

  // ---- Periodic maintenance ----

  /** Maintenance retries the eviction of a document that nobody is connected to. */
  lemma UninterruptedMaintenance(s: State, accepts: bool) returns (events: seq<Event>, r: State)
    requires Quiet(s) && s.registry.room == [] && s.storage.slot.live.Some?
    ensures Run(s, events) == Some(r) && Quiet(r) && SameRoom(s, r)
    ensures View(r.storage) == Checkpointed(View(s.storage), false, accepts)
  {
    events, r := Advance(s, [], s, Maintain);
    events, r := UninterruptedEviction(s, events, r, accepts);
  }

  /** And has nothing to do for a session that is not loaded. */
  lemma UninterruptedIdleMaintenance(s: State) returns (events: seq<Event>)
    requires Quiet(s) && s.registry.room == [] && s.storage.slot.live.None?
    ensures events == [Maintain, BeginCheckpoint] && Run(s, events) == Some(s)
  {
    var r;
    events, r := Advance(s, [], s, Maintain);
    events, r := Advance(s, events, r, BeginCheckpoint);
    assert r == s;
  }

  /** In a populated room it only checkpoints. */
  lemma UninterruptedCheckpoint(s: State, accepts: bool) returns (events: seq<Event>, r: State)
    requires Quiet(s) && s.storage.slot.live.Some?
    ensures Run(s, events) == Some(r) && Quiet(r) && SameRoom(s, r)
    ensures View(r.storage) == Checkpointed(View(s.storage), true, accepts)
    ensures r.storage.slot.live.value.meta.checkpointed ==
              if accepts then Some(s.storage.slot.live.value.meta.generation)
              else s.storage.slot.live.value.meta.checkpointed
  {
    events, r := Advance(s, [], s, BeginBackgroundCheckpoint);
    events, r := UninterruptedBackgroundWrite(s, events, r, accepts);
  }

  lemma UninterruptedBackgroundWrite(s: State, events: seq<Event>, r: State, accepts: bool)
    returns (events': seq<Event>, r': State)
    requires Run(s, events) == Some(r) && r.gate == Open && r.storage.slot.live.Some? && !r.storage.slot.loading
    requires r.storage.op ==
               Writing(r.storage.slot.live.value.doc, r.storage.slot.live.value.meta.generation, false, false)
    ensures Run(s, events') == Some(r') && Quiet(r') && SameRoom(r, r')
    ensures View(r'.storage) == Checkpointed(View(r.storage), true, accepts)
    ensures r'.storage.slot.live.value.meta.checkpointed ==
              if accepts then Some(r.storage.slot.live.value.meta.generation)
              else r.storage.slot.live.value.meta.checkpointed
  {
    if accepts {
      events', r' := Advance(s, events, r, CheckpointWritten);
      events', r' := Advance(s, events', r', CheckpointRecorded);
    } else {
      events', r' := Advance(s, events, r, CheckpointFails);
    }
  }

  // ---- Membership changes ----

  /** What each change does to the membership row and to the authorizations given before. */
  lemma UninterruptedMutation(s: State, m: Mutation) returns (events: seq<Event>, r: State)
    requires s.gate == Open && s.row.active && ServiceOutcome(s.row, m).Done?
    ensures Run(s, events) == Some(r) && r.gate == Open
    ensures ServiceOutcome(s.row, m) == Done(r.row)
    ensures r.registry == (match m
                           case ChangeRole(u, _) => FenceMember(s.registry, u, RoleChanged)
                           case Remove(u) => FenceMember(s.registry, u, NotMember)
                           case Close => FenceSession(s.registry))
    ensures r.storage == s.storage && r.conns == s.conns && r.applied == s.applied
  {
    MutationsAreTheService(s.row, m);
    events, r := Advance(s, [], s, EnterMutation(m));
    events, r := Advance(s, events, r, CommitMutation(true));
    events, r := Advance(s, events, r, FenceMutation);
  }

  /** Nothing is fenced before its commit, and only a change to the role already held commits without writing. */
  lemma FencesFollowCommits(s: State)
    ensures Enabled(s, FenceMutation) <==> s.gate.Mutating? && s.gate.committed
    ensures Enabled(s, CommitMutation(false)) ==> s.gate.mutation.ChangeRole?
    ensures Enabled(s, CommitMutation(true)) ==>
              Step(s, CommitMutation(true)).gate == s.gate.(committed := true)
  {
  }

  /** A refused one changes nothing, and fences nobody. */
  lemma UninterruptedRefusedMutation(s: State, m: Mutation) returns (events: seq<Event>)
    requires s.gate == Open
    ensures Run(s, events) == Some(s)
  {
    var r;
    events, r := Advance(s, [], s, EnterMutation(m));
    events, r := Advance(s, events, r, RefuseMutation);
    assert r == s;
  }

  // ---- From a stored session ----

  lemma InitIsReady(s: State)
    requires Init(s)
    ensures Ready(s) && s.storage.Held() == s.storage.Durable()
  {
    InitHolds(s);
  }

  /** Two editors of a stored session meet in its room, and the edits of both are in the document. */
  lemma EditorsShareADocument(s: State, first: User, second: User, a: Doc, b: Doc)
    returns (events: seq<Event>, r: State)
    requires Init(s) && s.row.active
    requires first in s.row.members && s.row.members[first] != Viewer
    requires second in s.row.members && s.row.members[second] != Viewer
    ensures Run(s, events) == Some(r) && At(r, 1, Serving) && At(r, 2, Serving)
    ensures r.storage.Held() == s.storage.Durable() + a + b
    ensures r.applied == [Applied(first, a, s.row), Applied(second, b, s.row)]
  {
    InitIsReady(s);
    events, r := TwoConnect(s, first, second);
    var before := r;
    var more;
    more, r := UninterruptedEdit(before, 1, a);
    StepsKeepInv(before, more);
    RunsCompose(Next, s, events, more);
    events := events + more;
    before := r;
    more, r := UninterruptedEdit(before, 2, b);
    RunsCompose(Next, s, events, more);
    events := events + more;
  }

  /** The first into an empty room, the second into a populated one. */
  lemma TwoConnect(s: State, first: User, second: User) returns (events: seq<Event>, r: State)
    requires Ready(s) && s.conns == map[] && s.row.active && first in s.row.members && second in s.row.members
    ensures Run(s, events) == Some(r) && Ready(r) && r.row == s.row && r.applied == s.applied
    ensures r.storage.Held() == s.storage.Held()
    ensures At(r, 1, Serving) && At(r, 2, Serving)
    ensures r.conns[1].user == first && r.conns[1].role == s.row.members[first]
    ensures r.conns[2].user == second && r.conns[2].role == s.row.members[second]
    ensures Failure(r.registry, first, 1).None? && Failure(r.registry, second, 2).None?
  {
    var s1, more;
    events, s1 := UninterruptedConnect(s, 1, first);
    more, r := UninterruptedConnect(s1, 2, second);
    RunsCompose(Next, s, events, more);
    events := events + more;
  }
}
