/**
 The inductive invariants of the room protocol. `AuthInv` says that cached
 authorizations agree with PostgreSQL wherever a version check would still
 accept them; `ControlInv` ties storage operations to the gate and the room.
 */
module RoomInvariants {
  import opened Prelude
  import opened LiveDocument
  import opened DocumentStorage
  import opened Membership
  import opened RoomRegistry
  import opened RoomProtocol

  // ---- Authorization and room bookkeeping ----

  predicate InRoom(p: Phase) {
    p.Joined? || p.Serving? || p.Received? || p.WaitingToApply? || p.WaitingToLeave?
  }

  predicate Stamped(p: Phase) {
    InRoom(p) || p.WaitingToJoin? || p.JoiningRoom?
  }

  /** Between a membership commit and its fence, versions do not yet tell the truth about `user`. */
  predicate Unfenced(g: Gate, user: User) {
    g.Mutating? && g.committed && !g.mutation.Close? && g.mutation.user == user
  }

  predicate Closing(g: Gate) {
    g.Mutating? && g.committed && g.mutation.Close?
  }

  ghost predicate ConnInv(s: State, id: ConnId)
    requires id in s.conns
  {
    var c := s.conns[id];
    && c.stamp.member <= MemberVersion(s.registry, c.user)
    && c.stamp.session <= SessionVersion(s.registry)
    && (Stamped(c.phase) ==> id in s.registry.stamps && s.registry.stamps[id] == c.stamp)
    && (!c.phase.ReadingSession? && c.stamp.session == SessionVersion(s.registry) && !Closing(s.gate) ==>
          s.row.active)
    && (!c.phase.ReadingSession? && !c.phase.ReadingMember?
        && c.stamp.member == MemberVersion(s.registry, c.user) && !Unfenced(s.gate, c.user) ==>
          c.user in s.row.members && s.row.members[c.user] == c.role)
  }

  ghost predicate RoomInv(s: State) {
    && (forall c :: c in s.conns && InRoom(s.conns[c].phase) ==> c in AllConns(s.registry.room))
    && (forall e :: e in s.registry.room ==>
          e.conn in s.conns && InRoom(s.conns[e.conn].phase)
          && s.conns[e.conn].user == e.user && s.conns[e.conn].role == e.role)
    && (forall c :: c in s.registry.stamps ==> c in s.conns && Stamped(s.conns[c].phase))
    && (forall c :: c in s.registry.revoked ==> c in s.conns && InRoom(s.conns[c].phase))
  }

  ghost predicate GateInv(s: State) {
    match s.gate
    case Open => true
    case Joining(c) => At(s, c, JoiningRoom) && s.registry.room == []
    case Leaving => s.registry.room == []
    case Maintaining => s.registry.room == []
    case Http(r, point, crowded) =>
      && crowded == (s.registry.room != [])
      && (!point.Checking? ==> MayEdit(s.row, r.user))
    case Mutating(_, _) => true
  }

  ghost predicate AuthInv(s: State) {
    && (forall c :: c in s.conns ==> ConnInv(s, c))
    && RoomInv(s)
    && GateInv(s)
    && (forall i :: 0 <= i < |s.applied| ==> MayEdit(s.applied[i].row, s.applied[i].user))
  }

  lemma {:induction false} WithoutConns(room: seq<Entry>, conn: ConnId)
    ensures AllConns(Without(room, conn)) == AllConns(room) - {conn}
  {
    var rest := Without(room, conn);
    forall c | c in AllConns(room) - {conn} ensures c in AllConns(rest) {
      var e :| e in room && e.conn == c;
      assert e in rest;
    }
    forall c | c in AllConns(rest) ensures c in AllConns(room) - {conn} {
      var e :| e in rest && e.conn == c;
      assert e in room;
    }
  }

  lemma AppendConns(room: seq<Entry>, entry: Entry)
    ensures AllConns(room + [entry]) == AllConns(room) + {entry.conn}
  {
    forall c | c in AllConns(room) ensures c in AllConns(room + [entry]) {
      var e :| e in room && e.conn == c;
      assert e in room + [entry];
    }
    assert entry in room + [entry];
  }

  /** A connection the version check still accepts has exactly the role PostgreSQL shows. */
  lemma AcceptedMeansCurrent(s: State, id: ConnId)
    requires AuthInv(s) && s.gate == Open
    requires id in s.conns && Stamped(s.conns[id].phase)
    requires Failure(s.registry, s.conns[id].user, id).None?
    ensures s.row.active
    ensures s.conns[id].user in s.row.members && s.row.members[s.conns[id].user] == s.conns[id].role
  {
    assert ConnInv(s, id);
  }

  lemma GotoKeepsAuth(s: State, c: ConnId, phase: Phase)
    requires AuthInv(s) && c in s.conns
    requires InRoom(s.conns[c].phase) && InRoom(phase)
    ensures AuthInv(Goto(s, c, phase))
  {
    var s' := Goto(s, c, phase);
    forall d | d in s'.conns ensures ConnInv(s', d) {
      assert ConnInv(s, d);
    }
  }

  lemma RevokeKeepsAuth(s: State, conns: set<ConnId>, reason: Reason)
    requires AuthInv(s) && forall c :: c in conns ==> c in s.conns && InRoom(s.conns[c].phase)
    ensures AuthInv(s.(registry := Revoke(s.registry, conns, reason)))
  {
    var s' := s.(registry := Revoke(s.registry, conns, reason));
    forall d | d in s'.conns ensures ConnInv(s', d) {
      assert ConnInv(s, d);
    }
  }

  lemma StorageKeepsAuth(s: State, storage: Storage)
    requires AuthInv(s)
    ensures AuthInv(s.(storage := storage))
  {
    var s' := s.(storage := storage);
    forall d | d in s'.conns ensures ConnInv(s', d) {
      assert ConnInv(s, d);
    }
  }

  lemma CheckThenKeepsAuth(s: State, c: ConnId, stale: Phase, valid: Phase)
    requires AuthInv(s) && c in s.conns
    requires InRoom(s.conns[c].phase) && InRoom(stale) && InRoom(valid)
    ensures AuthInv(CheckThen(s, c, stale, valid))
  {
    match Failure(s.registry, s.conns[c].user, c) {
      case Some(reason) =>
        GotoKeepsAuth(s, c, stale);
        RevokeKeepsAuth(Goto(s, c, stale), {c}, reason);
      case None => GotoKeepsAuth(s, c, valid);
    }
  }

  lemma DropKeepsAuth(s: State, c: ConnId)
    requires AuthInv(s) && c in s.conns && !InRoom(s.conns[c].phase) && s.gate != Joining(c)
    ensures AuthInv(Drop(s, c).(registry := Forget(s.registry, c)))
  {
    var s' := Drop(s, c).(registry := Forget(s.registry, c));
    forall d | d in s'.conns ensures ConnInv(s', d) {
      assert ConnInv(s, d);
    }
  }

  lemma ConnectKeepsAuth(s: State, c: ConnId, user: User)
    requires AuthInv(s) && c !in s.conns
    ensures AuthInv(Step(s, Connect(c, user)))
  {
    var s' := Step(s, Connect(c, user));
    forall d | d in s'.conns ensures ConnInv(s', d) {
      if d != c {
        assert ConnInv(s, d);
      }
    }
  }

  /** Authentication that fails leaves nothing behind. */
  lemma RejectKeepsAuth(s: State, c: ConnId)
    requires AuthInv(s) && c in s.conns && !Stamped(s.conns[c].phase)
    ensures AuthInv(Drop(s, c))
  {
    assert Forget(s.registry, c) == s.registry;
    DropKeepsAuth(s, c);
  }

  lemma ReadSessionKeepsAuth(s: State, c: ConnId)
    requires AuthInv(s) && Enabled(s, ReadSession(c))
    ensures AuthInv(Step(s, ReadSession(c)))
  {
    if s.row.active {
      var s' := Step(s, ReadSession(c));
      forall d | d in s'.conns ensures ConnInv(s', d) {
        assert ConnInv(s, d);
      }
    } else {
      RejectKeepsAuth(s, c);
    }
  }

  lemma ReadMemberKeepsAuth(s: State, c: ConnId)
    requires AuthInv(s) && Enabled(s, ReadMember(c))
    ensures AuthInv(Step(s, ReadMember(c)))
  {
    if s.conns[c].user in s.row.members {
      var s' := Step(s, ReadMember(c));
      forall d | d in s'.conns ensures ConnInv(s', d) {
        assert ConnInv(s, d);
      }
    } else {
      RejectKeepsAuth(s, c);
    }
  }

  lemma StampKeepsConn(s: State, c: ConnId, d: ConnId)
    requires At(s, c, Accepting) && d in s.conns && ConnInv(s, d)
    ensures ConnInv(Goto(s, c, WaitingToJoin).(registry := Register(s.registry, c, s.conns[c].stamp)), d)
  {
  }

  lemma StampKeepsAuth(s: State, c: ConnId)
    requires AuthInv(s) && At(s, c, Accepting)
    ensures AuthInv(Goto(s, c, WaitingToJoin).(registry := Register(s.registry, c, s.conns[c].stamp)))
  {
    var s' := Goto(s, c, WaitingToJoin).(registry := Register(s.registry, c, s.conns[c].stamp));
    forall d | d in s'.conns ensures ConnInv(s', d) {
      StampKeepsConn(s, c, d);
    }
  }

  /** A stamp that is stale on arrival is registered and forgotten again. */
  lemma RefusalLeavesNoTrace(s: State, c: ConnId)
    requires RoomInv(s) && At(s, c, Accepting)
    ensures Forget(Register(s.registry, c, s.conns[c].stamp), c) == s.registry
  {
  }

  lemma RegisterKeepsAuth(s: State, c: ConnId)
    requires AuthInv(s) && Enabled(s, RegisterStamp(c))
    ensures AuthInv(Step(s, RegisterStamp(c)))
  {
    var r := Register(s.registry, c, s.conns[c].stamp);
    if Failure(r, s.conns[c].user, c).Some? {
      RefusalLeavesNoTrace(s, c);
      RejectKeepsAuth(s, c);
    } else {
      StampKeepsAuth(s, c);
    }
  }

  lemma AdmitKeepsAuth(s: State, c: ConnId, gate: Gate)
    requires AuthInv(s.(gate := gate)) && gate == Open
    requires c in s.conns && (s.conns[c].phase.WaitingToJoin? || s.conns[c].phase.JoiningRoom?)
    ensures AuthInv(Admit(s, c).(gate := Open))
  {
    var s0, s' := s.(gate := gate), Admit(s, c).(gate := Open);
    var entry := Entry(c, s.conns[c].user, s.conns[c].role);
    AppendConns(s.registry.room, entry);
    forall d | d in s'.conns ensures ConnInv(s', d) {
      assert ConnInv(s0, d);
    }
  }

  lemma EnterJoinKeepsAuth(s: State, c: ConnId)
    requires AuthInv(s) && Enabled(s, EnterJoin(c))
    ensures AuthInv(Step(s, EnterJoin(c)))
  {
    if s.registry.room == [] {
      var s' := Step(s, EnterJoin(c));
      forall d | d in s'.conns ensures ConnInv(s', d) {
        assert ConnInv(s, d);
      }
    } else {
      assert s.(gate := Open) == s;
      AdmitKeepsAuth(s, c, Open);
      assert Admit(s, c).(gate := Open) == Step(s, EnterJoin(c));
    }
  }

  lemma ApplyForKeepsAuth(s: State, user: User, update: Option<Doc>)
    requires AuthInv(s) && MayEdit(s.row, user)
    ensures AuthInv(ApplyFor(s, user, update))
  {
    var s' := ApplyFor(s, user, update);
    forall d | d in s'.conns ensures ConnInv(s', d) {
      assert ConnInv(s, d);
    }
  }

  lemma ApplyFrameKeepsAuth(s: State, c: ConnId)
    requires AuthInv(s) && Enabled(s, ApplyFrame(c))
    ensures AuthInv(Step(s, ApplyFrame(c)))
  {
    var conn := s.conns[c];
    match Failure(s.registry, conn.user, c) {
      case Some(reason) => CheckThenKeepsAuth(s, c, Serving, Serving);
      case None =>
        if Rank(conn.role) < Rank(Editor) {
          GotoKeepsAuth(s, c, Serving);
        } else {
          AcceptedMeansCurrent(s, c);
          ApplyForKeepsAuth(s, conn.user, conn.phase.update);
          GotoKeepsAuth(ApplyFor(s, conn.user, conn.phase.update), c, Serving);
        }
    }
  }

  lemma LeaveKeepsAuth(s: State, c: ConnId)
    requires AuthInv(s) && Enabled(s, Leave(c))
    ensures AuthInv(Step(s, Leave(c)))
  {
    var s' := Step(s, Leave(c));
    WithoutConns(s.registry.room, c);
    assert s.registry.room != [];
    forall d | d in s'.conns ensures ConnInv(s', d) {
      assert ConnInv(s, d);
    }
  }

  predicate IsArrival(e: Event) {
    e.Connect? || e.ReadSession? || e.ReadMember? || e.RegisterStamp? || e.EnterJoin?
  }

  lemma ArrivalKeepsAuth(s: State, e: Event)
    requires AuthInv(s) && Enabled(s, e) && IsArrival(e)
    ensures AuthInv(Step(s, e))
  {
    match e {
      case Connect(c, user) => ConnectKeepsAuth(s, c, user);
      case ReadSession(c) => ReadSessionKeepsAuth(s, c);
      case ReadMember(c) => ReadMemberKeepsAuth(s, c);
      case RegisterStamp(c) => RegisterKeepsAuth(s, c);
      case EnterJoin(c) => EnterJoinKeepsAuth(s, c);
    }
  }

  lemma HandleKeepsAuth(s: State, c: ConnId)
    requires AuthInv(s) && Enabled(s, Handle(c))
    ensures AuthInv(Step(s, Handle(c)))
  {
    GotoKeepsAuth(s, c, Serving);
    StorageKeepsAuth(Goto(s, c, Serving), Peek(s.storage));
    if s.conns[c].phase.frame.Update? {
      GotoKeepsAuth(s, c, WaitingToApply(s.conns[c].phase.frame.ops));
    }
  }

  lemma CheckJoinedKeepsAuth(s: State, c: ConnId)
    requires AuthInv(s) && Enabled(s, CheckJoined(c))
    ensures AuthInv(Step(s, CheckJoined(c)))
  {
    CheckThenKeepsAuth(s, c, WaitingToLeave, Serving);
    StorageKeepsAuth(CheckThen(s, c, WaitingToLeave, Serving), Peek(s.storage));
  }

  lemma ConnStepKeepsAuth(s: State, e: Event)
    requires AuthInv(s) && Enabled(s, e) && IsConnEvent(e)
    ensures AuthInv(Step(s, e))
  {
    if IsArrival(e) {
      ArrivalKeepsAuth(s, e);
    } else if e.CheckJoined? {
      CheckJoinedKeepsAuth(s, e.conn);
    } else if e.Receive? {
      CheckThenKeepsAuth(s, e.conn, WaitingToLeave, Received(e.frame));
    } else if e.Handle? {
      HandleKeepsAuth(s, e.conn);
    } else if e.ApplyFrame? {
      ApplyFrameKeepsAuth(s, e.conn);
    } else if e.Disconnect? {
      GotoKeepsAuth(s, e.conn, WaitingToLeave);
    } else {
      LeaveKeepsAuth(s, e.conn);
    }
  }

  predicate InWindow(g: Gate) {
    g.Mutating? && g.committed
  }

  lemma RegateKeepsAuth(s: State, g: Gate)
    requires AuthInv(s) && !InWindow(s.gate) && !InWindow(g) && GateInv(s.(gate := g))
    ensures AuthInv(s.(gate := g))
  {
    var s' := s.(gate := g);
    forall d | d in s'.conns ensures ConnInv(s', d) {
      assert ConnInv(s, d);
    }
  }

  lemma CommitKeepsAuth(s: State, writes: bool)
    requires AuthInv(s) && Enabled(s, CommitMutation(writes))
    ensures AuthInv(Step(s, CommitMutation(writes)))
  {
    var s' := Step(s, CommitMutation(writes));
    forall d | d in s'.conns ensures ConnInv(s', d) {
      assert ConnInv(s, d);
    }
  }

  /** After the fence, every stamp taken before it is behind, so its claims are vacuous. */
  lemma FenceKeepsAuth(s: State)
    requires AuthInv(s) && Enabled(s, FenceMutation)
    ensures AuthInv(Step(s, FenceMutation))
  {
    var s' := Step(s, FenceMutation);
    forall d | d in s'.conns ensures ConnInv(s', d) {
      assert ConnInv(s, d);
    }
  }

  /** Inviting takes no gate, but a user who is no member holds no authorization that is still accepted. */
  lemma InviteKeepsAuth(s: State, user: User, role: Role)
    requires AuthInv(s) && Enabled(s, InviteMember(user, role))
    ensures AuthInv(Step(s, InviteMember(user, role)))
  {
    var s' := Step(s, InviteMember(user, role));
    forall d | d in s'.conns ensures ConnInv(s', d) {
      assert ConnInv(s, d);
    }
  }

  lemma ActKeepsAuth(s: State)
    requires AuthInv(s) && Enabled(s, Act)
    ensures AuthInv(Step(s, Act))
  {
    var r := s.gate.request;
    var next := s.gate.(point := Settling);
    match r {
      case Save(user, update) =>
        ApplyForKeepsAuth(s, user, update);
        var s' := ApplyFor(s, user, update);
        RegateKeepsAuth(s', s.gate.(point := Saving));
        RegateKeepsAuth(s', Open);
      case Restore(user, edit) =>
        if edit.None? {
          StorageKeepsAuth(s, Peek(s.storage));
          RegateKeepsAuth(s.(storage := Peek(s.storage)), next);
        } else {
          ApplyForKeepsAuth(s, user, edit);
          RegateKeepsAuth(ApplyFor(s, user, edit), next);
        }
      case TakeSnapshot(_) =>
        StorageKeepsAuth(s, Peek(s.storage));
        RegateKeepsAuth(s.(storage := Peek(s.storage)), next);
      case RunCode(_) => RegateKeepsAuth(s, next);
    }
  }

  lemma RequestStepKeepsAuth(s: State, e: Event)
    requires AuthInv(s) && Enabled(s, e) && !IsConnEvent(e) && !IsStorageEvent(e)
    ensures AuthInv(Step(s, e))
  {
    match e {
      case EnterRequest(r) => RegateKeepsAuth(s, Http(r, Checking, s.registry.room != []));
      case Authorize =>
        RegateKeepsAuth(s, Open);
        if MayEdit(s.row, s.gate.request.user) {
          RegateKeepsAuth(s, s.gate.(point := Loading));
        }
      case Abort => RegateKeepsAuth(s, Open);
      case Act => ActKeepsAuth(s);
      case Release => RegateKeepsAuth(s, Open);
      case Maintain => RegateKeepsAuth(s, Maintaining);
      case EnterMutation(m) => RegateKeepsAuth(s, Mutating(m, false));
      case RefuseMutation => RegateKeepsAuth(s, Open);
      case CommitMutation(writes) => CommitKeepsAuth(s, writes);
      case FenceMutation => FenceKeepsAuth(s);
      case InviteMember(user, role) => InviteKeepsAuth(s, user, role);
    }
  }

  lemma ResumeKeepsAuth(s: State)
    requires AuthInv(s) && !s.gate.Mutating?
    requires s.gate.Http? ==> !s.gate.point.Checking?
    ensures AuthInv(Resume(s))
  {
    match s.gate {
      case Joining(c) =>
        RegateKeepsAuth(s, Open);
        AdmitKeepsAuth(s, c, Open);
      case Http(r, point, crowded) =>
        RegateKeepsAuth(s, Open);
        RegateKeepsAuth(s, Http(r, Acting, crowded));
        RegateKeepsAuth(s, Http(r, Settling, crowded));
      case _ => RegateKeepsAuth(s, Open);
    }
  }

  lemma SettleKeepsAuth(s: State, storage: Storage, gated: bool)
    requires AuthInv(s)
    requires gated && storage.op.Idle? ==> !s.gate.Mutating? && (s.gate.Http? ==> !s.gate.point.Checking?)
    ensures AuthInv(Settle(s, storage, gated))
  {
    StorageKeepsAuth(s, storage);
    if gated && storage.op.Idle? {
      ResumeKeepsAuth(s.(storage := storage));
    }
  }

  // ---- The gate, the guard and the room agree ----

  /** Whether the gate holder is past its load, so that its request relies on a live document. */
  predicate PastLoad(g: Gate) {
    g.Http? && (g.point.Acting? || g.point.Saving? || g.point.Settling?)
  }

  ghost predicate OpMatchesGate(s: State) {
    match s.storage.op
    case Idle => !s.storage.slot.loading
    case ReadingRow(thenSave) => s.storage.slot == Slot(None, true) && !thenSave && WantsLoad(s.gate)
    case ReadingCheckpoint(_, thenSave) => s.storage.slot == Slot(None, true) && !thenSave && WantsLoad(s.gate)
    case Committing(_) => s.storage.slot.live.Some? && !s.storage.slot.loading && WantsSave(s.gate)
    case Committed(_) => s.storage.slot.live.Some? && !s.storage.slot.loading && WantsSave(s.gate)
    case Writing(_, _, evict, gated) =>
      && s.storage.slot.live.Some? && !s.storage.slot.loading
      && (gated ==> WantsCheckpoint(s.gate)) && (evict ==> gated && Evicts(s.gate))
    case Written(_, _, evict, gated) =>
      && s.storage.slot.live.Some? && !s.storage.slot.loading
      && (gated ==> WantsCheckpoint(s.gate)) && (evict ==> gated && Evicts(s.gate))
  }

  ghost predicate ControlInv(s: State) {
    && OpMatchesGate(s)
    && (s.registry.room != [] ==> s.storage.slot.live.Some?)
    && (PastLoad(s.gate) ==> s.storage.slot.live.Some?)
    && !s.storage.conjured
  }

  lemma StorageStepKeepsAuth(s: State, e: Event)
    requires AuthInv(s) && ControlInv(s) && Enabled(s, e) && IsStorageEvent(e)
    ensures AuthInv(Step(s, e))
  {
    match e {
      case BeginLoad => SettleKeepsAuth(s, StartLoad(s.storage, false), true);
      case RowRead => StorageKeepsAuth(s, LoadRow(s.storage));
      case RowReadFails =>
        StorageKeepsAuth(s, FailLoad(s.storage));
        var s' := s.(storage := FailLoad(s.storage));
        RegateKeepsAuth(s', Open);
        if s.gate.Joining? {
          DropKeepsAuth(s'.(gate := Open), s.gate.conn);
        }
      case CheckpointRead(outage) => SettleKeepsAuth(s, Publish(s.storage, outage), true);
      case BeginSave => StorageKeepsAuth(s, StartSave(s.storage));
      case SaveCommits => StorageKeepsAuth(s, CommitSave(s.storage));
      case SaveFails =>
        StorageKeepsAuth(s, FailSave(s.storage));
        RegateKeepsAuth(s.(storage := FailSave(s.storage)), Open);
      case SaveRecorded => SettleKeepsAuth(s, RecordSaved(s.storage), true);
      case BeginCheckpoint => SettleKeepsAuth(s, StartCheckpoint(s.storage, Evicts(s.gate), true), true);
      case BeginBackgroundCheckpoint => StorageKeepsAuth(s, StartCheckpoint(s.storage, false, false));
      case CheckpointWritten => StorageKeepsAuth(s, WriteCheckpoint(s.storage));
      case CheckpointFails => SettleKeepsAuth(s, FailCheckpoint(s.storage), s.storage.op.gated);
      case CheckpointRecorded => SettleKeepsAuth(s, RecordCheckpointed(s.storage), s.storage.op.gated);
    }
  }

  lemma StepKeepsAuth(s: State, e: Event)
    requires AuthInv(s) && ControlInv(s) && Enabled(s, e)
    ensures AuthInv(Step(s, e))
  {
    if IsConnEvent(e) {
      ConnStepKeepsAuth(s, e);
    } else if IsStorageEvent(e) {
      StorageStepKeepsAuth(s, e);
    } else {
      RequestStepKeepsAuth(s, e);
    }
  }

  /** A connection in the room keeps its document loaded, which is why no frame can conjure a blank one. */
  lemma ConnectedMeansLive(s: State, c: ConnId)
    requires AuthInv(s) && ControlInv(s)
    requires c in s.conns && InRoom(s.conns[c].phase)
    ensures s.registry.room != [] && s.storage.slot.live.Some?
  {
    assert c in AllConns(s.registry.room);
  }

  /** Steps of a connection that leave the gate and every stored document alone. */
  lemma RoomChangeKeepsControl(s: State, s': State)
    requires ControlInv(s)
    requires s'.storage == s.storage && s'.gate == s.gate
    requires s'.registry.room != [] ==> s.registry.room != [] || s.storage.slot.live.Some?
    ensures ControlInv(s')
  {
  }

  lemma ApplyForKeepsControl(s: State, user: User, update: Option<Doc>)
    requires ControlInv(s) && s.storage.slot.live.Some?
    ensures ControlInv(ApplyFor(s, user, update))
  {
  }

  lemma ApplyFrameKeepsControl(s: State, c: ConnId)
    requires AuthInv(s) && ControlInv(s) && Enabled(s, ApplyFrame(c))
    ensures ControlInv(Step(s, ApplyFrame(c)))
  {
    ConnectedMeansLive(s, c);
    var s' := Step(s, ApplyFrame(c));
    assert s'.gate == s.gate && s'.registry.room == s.registry.room;
    if s'.storage != s.storage {
      ApplyForKeepsControl(s, s.conns[c].user, s.conns[c].phase.update);
    }
  }

  lemma PeekingKeepsControl(s: State, e: Event)
    requires AuthInv(s) && ControlInv(s) && Enabled(s, e) && (e.CheckJoined? || e.Handle?)
    ensures ControlInv(Step(s, e))
  {
    ConnectedMeansLive(s, e.conn);
    RoomChangeKeepsControl(s, Step(s, e));
  }

  lemma ConnStepKeepsControl(s: State, e: Event)
    requires AuthInv(s) && ControlInv(s) && Enabled(s, e) && IsConnEvent(e)
    ensures ControlInv(Step(s, e))
  {
    if e.ApplyFrame? {
      ApplyFrameKeepsControl(s, e.conn);
    } else if e.Leave? {
      ConnectedMeansLive(s, e.conn);
    } else if e.CheckJoined? || e.Handle? {
      PeekingKeepsControl(s, e);
    } else if !e.EnterJoin? {
      RoomChangeKeepsControl(s, Step(s, e));
    }
  }

  lemma RequestStepKeepsControl(s: State, e: Event)
    requires AuthInv(s) && ControlInv(s) && Enabled(s, e) && !IsConnEvent(e) && !IsStorageEvent(e)
    ensures ControlInv(Step(s, e))
  {
  }

  lemma LoadKeepsControl(s: State, e: Event)
    requires AuthInv(s) && ControlInv(s) && Enabled(s, e)
    requires e.BeginLoad? || e.RowRead? || e.RowReadFails? || e.CheckpointRead?
    ensures ControlInv(Step(s, e))
  {
  }

  lemma SaveKeepsControl(s: State, e: Event)
    requires AuthInv(s) && ControlInv(s) && Enabled(s, e)
    requires e.BeginSave? || e.SaveCommits? || e.SaveFails? || e.SaveRecorded?
    ensures ControlInv(Step(s, e))
  {
  }

  lemma CheckpointBeginKeepsControl(s: State, e: Event)
    requires AuthInv(s) && ControlInv(s) && Enabled(s, e)
    requires e.BeginCheckpoint? || e.BeginBackgroundCheckpoint? || e.CheckpointWritten?
    ensures ControlInv(Step(s, e))
  {
  }

  lemma CheckpointFailsKeepsControl(s: State)
    requires AuthInv(s) && ControlInv(s) && Enabled(s, CheckpointFails)
    ensures ControlInv(Step(s, CheckpointFails))
  {
  }

  lemma CheckpointRecordedKeepsControl(s: State)
    requires AuthInv(s) && ControlInv(s) && Enabled(s, CheckpointRecorded)
    ensures ControlInv(Step(s, CheckpointRecorded))
  {
    var s' := Step(s, CheckpointRecorded);
    assert s'.storage == RecordCheckpointed(s.storage) && s'.registry.room == s.registry.room;
    assert s'.gate == if s.storage.op.gated then Open else s.gate;
  }

  lemma StorageStepKeepsControl(s: State, e: Event)
    requires AuthInv(s) && ControlInv(s) && Enabled(s, e) && IsStorageEvent(e)
    ensures ControlInv(Step(s, e))
  {
    if e.BeginLoad? || e.RowRead? || e.RowReadFails? || e.CheckpointRead? {
      LoadKeepsControl(s, e);
    } else if e.BeginSave? || e.SaveCommits? || e.SaveFails? || e.SaveRecorded? {
      SaveKeepsControl(s, e);
    } else if e.CheckpointFails? {
      CheckpointFailsKeepsControl(s);
    } else if e.CheckpointRecorded? {
      CheckpointRecordedKeepsControl(s);
    } else {
      CheckpointBeginKeepsControl(s, e);
    }
  }

  lemma StepKeepsControl(s: State, e: Event)
    requires AuthInv(s) && ControlInv(s) && Enabled(s, e)
    ensures ControlInv(Step(s, e))
  {
    if IsConnEvent(e) {
      ConnStepKeepsControl(s, e);
    } else if IsStorageEvent(e) {
      StorageStepKeepsControl(s, e);
    } else {
      RequestStepKeepsControl(s, e);
    }
  }
}
