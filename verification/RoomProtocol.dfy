/**
 The whole live-collaboration protocol of one session as a step system.

 Connections and HTTP requests are coroutines; each control point at which one
 can be suspended is a `Phase` of its connection or a value of `Gate`, the
 holder of the room lock. A coroutine that waits for the lock has no other
 state, so a waiting HTTP request is simply an event that has not happened.
 An event is one uninterrupted segment of code between two awaits.
 */
module RoomProtocol {
  import opened Prelude
  import opened Runs
  import opened LiveDocument
  import opened DocumentStorage
  import opened Membership
  import opened RoomRegistry

  datatype Phase =
    | ReadingSession
    | ReadingMember
    | Accepting
    | WaitingToJoin
    | JoiningRoom
    | Joined
    | Serving
    | Received(frame: Frame)
    | WaitingToApply(update: Option<Doc>)
    | WaitingToLeave

  /** The sync frames: step 1 asks for state, step 2 and updates carry operations (None when undecodable). */
  datatype Frame = AskState | Update(ops: Option<Doc>)

  datatype Conn = Conn(user: User, stamp: Stamp, role: Role, phase: Phase)

  /** The gated endpoints; an update or edit of None is input that raises. */
  datatype Request =
    | Save(user: User, update: Option<Doc>)
    | Restore(user: User, edit: Option<Doc>)
    | TakeSnapshot(user: User)
    | RunCode(user: User)

  datatype Point = Checking | Loading | Acting | Saving | Settling

  datatype Mutation = ChangeRole(user: User, role: Role) | Remove(user: User) | Close

  datatype Gate =
    | Open
    | Joining(conn: ConnId)
    | Leaving
    | Maintaining
    | Http(request: Request, point: Point, crowded: bool)
    | Mutating(mutation: Mutation, committed: bool)

  /** One update that reached the document, with the session row that PostgreSQL showed at that moment. */
  datatype Applied = Applied(user: User, update: Doc, row: SessionRow)

  datatype State = State(
    row: SessionRow,
    storage: Storage,
    registry: Registry,
    conns: map<ConnId, Conn>,
    gate: Gate,
    applied: seq<Applied>)

  datatype Event =
    // websocket_endpoint
    | Connect(conn: ConnId, user: User)
    | ReadSession(conn: ConnId)
    | ReadMember(conn: ConnId)
    | RegisterStamp(conn: ConnId)
    | EnterJoin(conn: ConnId)
    | CheckJoined(conn: ConnId)
    | Receive(conn: ConnId, frame: Frame)
    | Handle(conn: ConnId)
    | ApplyFrame(conn: ConnId)
    | Disconnect(conn: ConnId)
    | Leave(conn: ConnId)
    // gated endpoints
    | EnterRequest(request: Request)
    | Authorize
    | Abort
    | Act
    | Release
    // storage operations
    | BeginLoad
    | RowRead
    | RowReadFails
    | CheckpointRead(outage: bool)
    | BeginSave
    | SaveCommits
    | SaveFails
    | SaveRecorded
    | BeginCheckpoint
    | BeginBackgroundCheckpoint
    | CheckpointWritten
    | CheckpointFails
    | CheckpointRecorded
    // maintenance and membership
    | Maintain
    | EnterMutation(mutation: Mutation)
    | RefuseMutation
    | CommitMutation(writes: bool)
    | FenceMutation
    | InviteMember(user: User, role: Role)

  ghost predicate Init(s: State) {
    && s.storage.slot == EMPTY_SLOT && s.storage.op == StorageOp.Idle
    && s.storage.versions == [] && s.storage.commits == [] && !s.storage.conjured
    && s.storage.accepted == s.storage.Durable()
    && s.registry == EMPTY_REGISTRY && s.conns == map[] && s.gate == Open && s.applied == []
  }

  /** Once joined, a connection can break or its coroutine raise at every await. */
  predicate MayFail(p: Phase) {
    p.Joined? || p.Serving? || p.Received? || p.WaitingToApply?
  }

  predicate At(s: State, conn: ConnId, phase: Phase) {
    conn in s.conns && s.conns[conn].phase == phase
  }

  /** Whether the gate holder is at a point where it uses the document it is about to load, save or checkpoint. */
  predicate WantsLoad(g: Gate) {
    g.Joining? || (g.Http? && g.point.Loading?)
  }

  predicate WantsSave(g: Gate) {
    g.Http? && g.point.Saving?
  }

  /** Snapshots and runs leave the document of a populated room alone. */
  predicate WantsCheckpoint(g: Gate) {
    g.Leaving? || g.Maintaining? ||
    (g.Http? && g.point.Settling? && (!g.crowded || g.request.Save? || g.request.Restore?))
  }

  predicate Evicts(g: Gate) {
    g.Leaving? || g.Maintaining? || (g.Http? && !g.crowded)
  }

  predicate MutationAccepted(row: SessionRow, m: Mutation) {
    match m
    case ChangeRole(u, role) => (u == row.owner) == (role == Owner) && u in row.members
    case Remove(u) => u != row.owner && u in row.members
    case Close => true
  }

  function Mutate(row: SessionRow, m: Mutation): SessionRow {
    match m
    case ChangeRole(u, role) => row.(members := row.members[u := role])
    case Remove(u) => row.(members := row.members - {u})
    case Close => row.(active := false)
  }

  /** The service call behind a mutation. */
  function ServiceOutcome(row: SessionRow, m: Mutation): Outcome {
    match m
    case ChangeRole(u, role) => UpdateMemberRole(row, u, role)
    case Remove(u) => RemoveMember(row, u)
    case Close => CloseSession(row)
  }

  /**
   On an active session the steps here are the service's. The activity check
   itself is left out of them because the ORM may answer it from its cache.
   */
  lemma MutationsAreTheService(row: SessionRow, m: Mutation)
    requires row.active
    ensures ServiceOutcome(row, m).Done? <==> MutationAccepted(row, m)
    ensures MutationAccepted(row, m) ==> ServiceOutcome(row, m) == Done(Mutate(row, m))
  {
  }

  /** So is an invitation, which never names an owner. */
  lemma InvitationsAreTheService(s: State, user: User, role: Role)
    requires s.row.active && Enabled(s, InviteMember(user, role))
    ensures AddMember(s.row, user, role, true) == Done(Step(s, InviteMember(user, role)).row)
    ensures Step(s, InviteMember(user, role)).row.members == s.row.members[user := role]
  {
  }

  predicate Enabled(s: State, e: Event) {
    match e
    case Connect(c, _) => c !in s.conns
    case ReadSession(c) => At(s, c, ReadingSession)
    case ReadMember(c) => At(s, c, ReadingMember)
    case RegisterStamp(c) => At(s, c, Accepting)
    case EnterJoin(c) => At(s, c, WaitingToJoin) && s.gate == Open
    case CheckJoined(c) => At(s, c, Joined)
    case Receive(c, _) => At(s, c, Serving)
    case Handle(c) => c in s.conns && s.conns[c].phase.Received?
    case ApplyFrame(c) => c in s.conns && s.conns[c].phase.WaitingToApply? && s.gate == Open
    case Disconnect(c) => c in s.conns && MayFail(s.conns[c].phase)
    case Leave(c) => At(s, c, WaitingToLeave) && s.gate == Open
    case EnterRequest(_) => s.gate == Open
    case Authorize => s.gate.Http? && s.gate.point.Checking?
    case Abort => s.gate.Http? && (s.gate.point.Loading? || s.gate.point.Acting?) &&
                  !s.storage.op.ReadingRow? && !s.storage.op.ReadingCheckpoint?
    case Act => s.gate.Http? && s.gate.point.Acting?
    case Release => s.gate.Http? && s.gate.point.Settling? && !WantsCheckpoint(s.gate)
    case BeginLoad => WantsLoad(s.gate) && s.storage.op.Idle?
    case RowRead => s.storage.op.ReadingRow?
    case RowReadFails => s.storage.op.ReadingRow?
    case CheckpointRead(_) => s.storage.op.ReadingCheckpoint?
    case BeginSave => WantsSave(s.gate) && s.storage.op.Idle?
    case SaveCommits => s.storage.op.Committing?
    case SaveFails => s.storage.op.Committing?
    case SaveRecorded => s.storage.op.Committed?
    case BeginCheckpoint => WantsCheckpoint(s.gate) && s.storage.op.Idle?
    case BeginBackgroundCheckpoint => s.storage.op.Idle?
    case CheckpointWritten => s.storage.op.Writing?
    case CheckpointFails => s.storage.op.Writing? || s.storage.op.Written?
    case CheckpointRecorded => s.storage.op.Written?
    case Maintain => s.gate == Open && s.registry.room == []
    case EnterMutation(_) => s.gate == Open
    case RefuseMutation => s.gate.Mutating? && !s.gate.committed
    case CommitMutation(writes) =>
      && s.gate.Mutating? && !s.gate.committed && MutationAccepted(s.row, s.gate.mutation)
      && (writes || s.gate.mutation.ChangeRole?)
    case FenceMutation => s.gate.Mutating? && s.gate.committed
    case InviteMember(u, role) => u !in s.row.members && role != Owner && u != s.row.owner
  }

  function Goto(s: State, conn: ConnId, phase: Phase): State
    requires conn in s.conns
  {
    s.(conns := s.conns[conn := s.conns[conn].(phase := phase)])
  }

  function Drop(s: State, conn: ConnId): State {
    s.(conns := s.conns - {conn})
  }

  function Admit(s: State, conn: ConnId): State
    requires conn in s.conns
  {
    var c := s.conns[conn];
    Goto(s, conn, Joined).(registry := Append(s.registry, Entry(conn, c.user, c.role)))
  }

  /** What the gate holder does when its storage operation returns. */
  function Resume(s: State): State {
    match s.gate
    case Joining(c) => if c in s.conns then Admit(s, c).(gate := Open) else s.(gate := Open)
    case Http(r, Loading, crowded) => s.(gate := Http(r, Acting, crowded))
    case Http(r, Saving, crowded) => s.(gate := Http(r, Settling, crowded))
    case _ => s.(gate := Open)
  }

  /** `_close_if_invalidated`: revoke and go on to `otherwise` when the authorization is stale. */
  function CheckThen(s: State, conn: ConnId, stale: Phase, valid: Phase): State
    requires conn in s.conns
  {
    match Failure(s.registry, s.conns[conn].user, conn)
    case Some(reason) => Goto(s, conn, stale).(registry := Revoke(s.registry, {conn}, reason))
    case None => Goto(s, conn, valid)
  }

  /** `doc_manager.apply_update`, logging what PostgreSQL shows at this moment. */
  function ApplyFor(s: State, user: User, update: Option<Doc>): State {
    s.(storage := DocumentStorage.Apply(s.storage, update),
       applied := if Applies(s.storage.slot, update)
                  then s.applied + [Applied(user, update.value, s.row)]
                  else s.applied)
  }

  /** `apply_if_authorized`, run under the room lock. */
  function ApplyIfAuthorized(s: State, conn: ConnId): State
    requires conn in s.conns && s.conns[conn].phase.WaitingToApply?
  {
    var c := s.conns[conn];
    match Failure(s.registry, c.user, conn)
    case Some(reason) => Goto(s, conn, Serving).(registry := Revoke(s.registry, {conn}, reason))
    case None =>
      if Rank(c.role) < Rank(Editor) then Goto(s, conn, Serving)
      else Goto(ApplyFor(s, c.user, c.phase.update), conn, Serving)
  }

  function ConnStep(s: State, e: Event): State
    requires Enabled(s, e)
  {
    match e
    case Connect(c, user) =>
      s.(conns := s.conns[c := Conn(user, StampNow(s.registry, user), Viewer, ReadingSession)])
    case ReadSession(c) => if s.row.active then Goto(s, c, ReadingMember) else Drop(s, c)
    case ReadMember(c) =>
      var user := s.conns[c].user;
      if user in s.row.members
      then s.(conns := s.conns[c := s.conns[c].(role := s.row.members[user], phase := Accepting)])
      else Drop(s, c)
    case RegisterStamp(c) =>
      var r := Register(s.registry, c, s.conns[c].stamp);
      if Failure(r, s.conns[c].user, c).Some?
      then Drop(s, c).(registry := Forget(r, c))
      else Goto(s, c, WaitingToJoin).(registry := r)
    case EnterJoin(c) =>
      if s.registry.room == [] then Goto(s, c, JoiningRoom).(gate := Joining(c))
      else Admit(s, c)
    case CheckJoined(c) =>
      var s' := CheckThen(s, c, WaitingToLeave, Serving);
      if At(s', c, Serving) && Rank(s.conns[c].role) >= Rank(Editor)
      then s'.(storage := Peek(s.storage))
      else s'
    case Receive(c, frame) => CheckThen(s, c, WaitingToLeave, Received(frame))
    case Handle(c) =>
      if c in s.registry.revoked then Goto(s, c, Serving)
      else
        (match s.conns[c].phase.frame
         case AskState => Goto(s, c, Serving).(storage := Peek(s.storage))
         case Update(ops) => Goto(s, c, WaitingToApply(ops)))
    case ApplyFrame(c) => ApplyIfAuthorized(s, c)
    case Disconnect(c) => Goto(s, c, WaitingToLeave)
    case Leave(c) =>
      var r := Depart(s.registry, c);
      var left := Drop(s, c).(registry := r);
      if s.registry.room == [] then left.(registry := Forget(s.registry, c))
      else if r.room == [] then left.(gate := Leaving)
      else left
    case _ => s
  }

  function RequestStep(s: State, e: Event): State
    requires Enabled(s, e)
  {
    match e
    case EnterRequest(r) => s.(gate := Http(r, Checking, s.registry.room != []))
    case Authorize =>
      if MayEdit(s.row, s.gate.request.user)
      then s.(gate := s.gate.(point := Loading))
      else s.(gate := Open)
    case Abort => s.(gate := Open)
    case Act =>
      (match s.gate.request
       case Save(user, update) =>
         var s' := ApplyFor(s, user, update);
         if Applies(s.storage.slot, update) then s'.(gate := s.gate.(point := Saving)) else s'.(gate := Open)
       case Restore(user, edit) =>
         // Restoring the text the document already shows is no edit at all.
         if edit.None? then s.(storage := Peek(s.storage), gate := s.gate.(point := Settling))
         else ApplyFor(s, user, edit).(gate := s.gate.(point := Settling))
       case TakeSnapshot(_) => s.(storage := Peek(s.storage), gate := s.gate.(point := Settling))
       case RunCode(_) => s.(gate := s.gate.(point := Settling)))
    case Release => s.(gate := Open)
    case Maintain => s.(gate := Maintaining)
    case EnterMutation(m) => s.(gate := Mutating(m, false))
    case RefuseMutation => s.(gate := Open)
    case CommitMutation(writes) =>
      s.(row := if writes then Mutate(s.row, s.gate.mutation) else s.row,
         gate := s.gate.(committed := true))
    case FenceMutation =>
      s.(registry := (match s.gate.mutation
                      case ChangeRole(u, _) => FenceMember(s.registry, u, RoleChanged)
                      case Remove(u) => FenceMember(s.registry, u, NotMember)
                      case Close => FenceSession(s.registry)),
         gate := Open)
    case InviteMember(u, role) => s.(row := s.row.(members := s.row.members[u := role]))
    case _ => s
  }

  /** A step that ended the gated operation resumes the gate holder; otherwise only storage moved. */
  function Settle(s: State, storage: Storage, gated: bool): State {
    if gated && storage.op.Idle? then Resume(s.(storage := storage)) else s.(storage := storage)
  }

  function StorageStep(s: State, e: Event): State
    requires Enabled(s, e)
  {
    match e
    case BeginLoad => Settle(s, StartLoad(s.storage, false), true)
    case RowRead => s.(storage := LoadRow(s.storage))
    case RowReadFails =>
      var s' := s.(storage := FailLoad(s.storage), gate := Open);
      (match s.gate
       case Joining(c) => Drop(s', c).(registry := Forget(s.registry, c))
       case _ => s')
    case CheckpointRead(outage) => Settle(s, Publish(s.storage, outage), true)
    case BeginSave => s.(storage := StartSave(s.storage))
    case SaveCommits => s.(storage := CommitSave(s.storage))
    case SaveFails => s.(storage := FailSave(s.storage), gate := Open)
    case SaveRecorded => Settle(s, RecordSaved(s.storage), true)
    case BeginCheckpoint => Settle(s, StartCheckpoint(s.storage, Evicts(s.gate), true), true)
    case BeginBackgroundCheckpoint => s.(storage := StartCheckpoint(s.storage, false, false))
    case CheckpointWritten => s.(storage := WriteCheckpoint(s.storage))
    case CheckpointFails => Settle(s, FailCheckpoint(s.storage), s.storage.op.gated)
    case CheckpointRecorded => Settle(s, RecordCheckpointed(s.storage), s.storage.op.gated)
    case _ => s
  }

  predicate IsConnEvent(e: Event) {
    e.Connect? || e.ReadSession? || e.ReadMember? || e.RegisterStamp? || e.EnterJoin? || e.CheckJoined? ||
    e.Receive? || e.Handle? || e.ApplyFrame? || e.Disconnect? || e.Leave?
  }

  predicate IsStorageEvent(e: Event) {
    e.BeginLoad? || e.RowRead? || e.RowReadFails? || e.CheckpointRead? || e.BeginSave? || e.SaveCommits? ||
    e.SaveFails? || e.SaveRecorded? || e.BeginCheckpoint? || e.BeginBackgroundCheckpoint? ||
    e.CheckpointWritten? || e.CheckpointFails? || e.CheckpointRecorded?
  }

  function Step(s: State, e: Event): State
    requires Enabled(s, e)
  {
    if IsConnEvent(e) then ConnStep(s, e)
    else if IsStorageEvent(e) then StorageStep(s, e)
    else RequestStep(s, e)
  }

  function Next(s: State, e: Event): Option<State> {
    if Enabled(s, e) then Some(Step(s, e)) else None
  }

  /** The state after a run, or None when some event of it was not enabled. */
  function Run(s: State, events: seq<Event>): Option<State> {
    RunOf(Next, s, events)
  }

  /** One more step of a run. */
  lemma Advance(s: State, events: seq<Event>, r: State, e: Event) returns (events': seq<Event>, r': State)
    requires Run(s, events) == Some(r) && Enabled(r, e)
    ensures events' == events + [e] && r' == Step(r, e)
    ensures Run(s, events') == Some(r')
  {
    events', r' := events + [e], Step(r, e);
    RunExtends(Next, s, events, e);
  }
}
