/**
 sessions/service.py and the gated endpoints of sessions/router.py in their own
 form: ordered steps on the session row, the hub and the document manager. An
 endpoint here runs without interruption; module RoomProtocol interleaves it.
 */
module SessionEndpoints {
  import opened Prelude
  import opened LiveDocument
  import opened StoredSession
  import opened Membership
  import opened RoomRegistry
  import opened RoomHub
  import opened DocumentManager
  import opened AwarenessStore
  import Awareness
  import ExecutionBackend
  import ExecutionLifecycle
  import ExecutionStatus

  const OK: nat := 200
  const ACCEPTED: nat := 202
  const FORBIDDEN: nat := 403
  const NOT_FOUND: nat := 404
  const CONFLICT: nat := 409
  const GONE: nat := 410
  const UNAVAILABLE: nat := 503
  const TOO_LARGE: nat := 413
  const UNPROCESSABLE: nat := 422
  const SERVER_ERROR: nat := 500
  const WS_ROLE_CHANGED: nat := 4001
  const WS_FORBIDDEN: nat := 4403
  const WS_SESSION_CLOSED: nat := 4410

  /** `_raise_http_error`. */
  function StatusFor(error: ServiceError): nat {
    match error
    case NotFound => NOT_FOUND
    case Inactive => GONE
    case Conflict => CONFLICT
  }

  /** The response to the outcome of a service call. */
  function Response(outcome: Outcome): nat {
    if outcome.Done? then OK else StatusFor(outcome.error)
  }

  /** The session row and its memberships. */
  class SessionTable {
    const owner: User
    var active: bool
    var members: map<User, Role>

    constructor (owner: User)
      ensures Row() == CreateSession(owner) && SingleOwner(Row())
    {
      this.owner := owner;
      active := true;
      members := map[owner := Owner];
    }

    function Row(): SessionRow
      reads this
    {
      SessionRow(owner, active, members)
    }

    method AddMember(user: User, role: Role, known: bool) returns (r: Option<ServiceError>)
      modifies this
      ensures Membership.AddMember(old(Row()), user, role, known) == (if r.None? then Done(Row()) else Refused(r.value))
      ensures r.None? <==> active && role != Owner && user != owner && known && user !in old(members)
      ensures r == Some(Inactive) <==> !active
      ensures r == Some(NotFound) <==> active && role != Owner && user != owner && !known
      ensures r.None? ==> members == old(members)[user := role]
      ensures r.Some? ==> Row() == old(Row())
      ensures old(SingleOwner(Row())) ==> SingleOwner(Row())
    {
      if !active {
        return Some(Inactive);
      }
      if role == Owner {
        return Some(Conflict);
      }
      if user == owner {
        return Some(Conflict);
      }
      if !known {
        return Some(NotFound);
      }
      if user in members {
        return Some(Conflict);
      }
      members := members[user := role];
      return None;
    }

    method UpdateMemberRole(user: User, role: Role) returns (r: Option<ServiceError>)
      modifies this
      ensures Membership.UpdateMemberRole(old(Row()), user, role) == (if r.None? then Done(Row()) else Refused(r.value))
      ensures r.None? <==> active && (user == owner <==> role == Owner) && user in old(members)
      ensures r == Some(Inactive) <==> !active
      ensures r == Some(NotFound) <==> active && (user == owner <==> role == Owner) && user !in old(members)
      ensures r.None? ==> members == old(members)[user := role]
      ensures r.Some? ==> Row() == old(Row())
      ensures old(SingleOwner(Row())) ==> SingleOwner(Row())
    {
      if !active {
        return Some(Inactive);
      }
      if user == owner && role != Owner {
        return Some(Conflict);
      }
      if user != owner && role == Owner {
        return Some(Conflict);
      }
      if user !in members {
        return Some(NotFound);
      }
      if members[user] == role {
        assert members[user := role] == members;
        return None;
      }
      members := members[user := role];
      return None;
    }

    method RemoveMember(user: User) returns (r: Option<ServiceError>)
      modifies this
      ensures Membership.RemoveMember(old(Row()), user) == (if r.None? then Done(Row()) else Refused(r.value))
      ensures r.None? <==> active && user != owner && user in old(members)
      ensures r == Some(Inactive) <==> !active
      ensures r == Some(NotFound) <==> active && user != owner && user !in old(members)
      ensures r.None? ==> members == old(members) - {user}
      ensures r.Some? ==> Row() == old(Row())
      ensures old(SingleOwner(Row())) ==> SingleOwner(Row())
    {
      if !active {
        return Some(Inactive);
      }
      if user == owner {
        return Some(Conflict);
      }
      if user !in members {
        return Some(NotFound);
      }
      members := members - {user};
      return None;
    }

    method CloseSession() returns (r: Option<ServiceError>)
      modifies this
      ensures Membership.CloseSession(old(Row())) == (if r.None? then Done(Row()) else Refused(r.value))
      ensures r == if old(active) then None else Some(Inactive)
      ensures !active && members == old(members)
      ensures r.Some? ==> Row() == old(Row())
      ensures old(SingleOwner(Row())) ==> SingleOwner(Row())
    {
      if !active {
        return Some(Inactive);
      }
      active := false;
      return None;
    }
  }

  /** Document bytes as they arrive or are stored: how many, and what they decode to, if they do. */
  datatype Encoded = Encoded(size: nat, content: Option<Doc>)

  /** What an endpoint sends to a session's room: an update, or which state reached PostgreSQL. */
  datatype Broadcast = Update(to: seq<Entry>, ops: Doc) | Saved(to: seq<Entry>, state: Doc, dirty: bool)

  class Endpoints {
    const id: string
    const table: SessionTable
    const hub: Hub
    const manager: Manager
    const awareness: Store
    const executions: ExecutionBackend.Backend
    /** `crdt_max_update_bytes`. */
    const limit: nat
    /** The session's `yjs_state` column, its Redis checkpoint and its snapshot rows. */
    var row: Option<Doc>
    var checkpoint: Option<Doc>
    var snapshots: map<nat, Encoded>
    /** Everything the endpoints have sent to the room so far. */
    var broadcasts: seq<Broadcast>

    constructor (
      id: string, table: SessionTable, hub: Hub, manager: Manager, awareness: Store,
      executions: ExecutionBackend.Backend, limit: nat)
      ensures this.id == id && this.table == table && this.hub == hub && this.manager == manager
      ensures this.awareness == awareness && this.executions == executions && this.limit == limit
      ensures row == None && checkpoint == None && snapshots == map[] && broadcasts == []
    {
      this.id, this.table, this.hub, this.manager := id, table, hub, manager;
      this.awareness, this.executions, this.limit := awareness, executions, limit;
      row, checkpoint, snapshots, broadcasts := None, None, map[], [];
    }

    /** What every operation finds and leaves: populated rooms are loaded, and memory is never behind storage. */
    ghost predicate Valid()
      reads this, hub, manager
    {
      && manager.Valid()
      && (hub.RoomOf(id) != [] ==> id in manager.docs)
      && Content(row) + Content(checkpoint) <= Held()
    }

    ghost function View(): Stored
      reads this, manager
    {
      Stored(row, checkpoint, if id in manager.docs then Some(manager.docs[id]) else None)
    }

    /** What the session contains, in memory or in storage. */
    ghost function Held(): Doc
      reads this, manager
    {
      View().Held()
    }

    predicate Crowded()
      reads this, hub
    {
      hub.RoomOf(id) != []
    }

    /** `RoleChecker`, which guards every endpoint; the owner role counts only for the canonical owner. */
    method CheckRole(user: User, role: Role) returns (failure: Option<nat>)
      ensures failure.None? <==>
                && table.active && user in table.members
                && (match role
                    case Viewer => true
                    case Editor => table.members[user] == Editor || table.members[user] == Owner
                    case Owner => table.members[user] == Owner && user == table.owner)
      ensures failure.Some? ==> failure.value == if table.active then FORBIDDEN else GONE
    {
      if !table.active {
        return Some(GONE);
      }
      if user !in table.members {
        return Some(FORBIDDEN);
      }
      if role == Owner && table.owner != user {
        return Some(FORBIDDEN);
      }
      if Rank(table.members[user]) < Rank(role) {
        return Some(FORBIDDEN);
      }
      return None;
    }

    /** `_require_current_editor`. */
    method RequireCurrentEditor(user: User) returns (failure: Option<nat>)
      ensures failure.None? <==>
                table.active && user in table.members && (table.members[user] == Editor || table.members[user] == Owner)
      ensures failure.Some? ==> failure.value == if table.Row().active then FORBIDDEN else GONE
    {
      if !table.active {
        return Some(GONE);
      }
      if user !in table.members || Rank(table.members[user]) < Rank(Editor) {
        return Some(FORBIDDEN);
      }
      return None;
    }

    method LoadFromStorage()
      requires Valid()
      modifies manager
      ensures Valid() && id in manager.docs && manager.docs[id] == old(Held())
      ensures forall o :: o != id ==> manager.SlotOf(o) == old(manager.SlotOf(o))
    {
      var needed := manager.BeginLoad(id);
      if needed {
        manager.FinishLoad(id, row, checkpoint);
        assert manager.SlotOf(id).live.Some?;
      }
    }

    /** `_join_room`: the first connection loads the document, and every one finds all the session held. */
    method JoinRoom(entry: Entry)
      requires Valid()
      modifies manager, hub`rooms
      ensures Valid() && id in manager.docs && Held() == old(Held())
      ensures hub.RegistryOf(id) == Append(old(hub.RegistryOf(id)), entry) && hub.OthersKept(id)
      ensures forall o :: o != id ==> manager.SlotOf(o) == old(manager.SlotOf(o))
    {
      if hub.RoomOf(id) == [] {
        LoadFromStorage();
      }
      hub.Join(id, entry);
    }

    /**
     `_leave_room`: the connection and its awareness are gone; the last one out
     sends the document back to Redis and clears the room's awareness, and
     otherwise the removals are broadcast and the document stays as it is.
     */
    method LeaveRoom(conn: ConnId, now: real, accepts: bool) returns (removed: seq<Awareness.Entry>)
      requires Valid()
      modifies this`checkpoint, manager, hub`rooms, hub`stamps, hub`revoked, awareness
      ensures Valid() && Held() == old(Held()) && row == old(row)
      ensures hub.RegistryOf(id) == Depart(old(hub.RegistryOf(id)), conn) && hub.OthersKept(id)
      ensures id in old(hub.rooms) && hub.RoomOf(id) != [] ==>
                && manager.SlotOf(id) == old(manager.SlotOf(id)) && checkpoint == old(checkpoint)
                && var before, gone := old(awareness.StatesOf(id)), Awareness.Disconnect(conn, now);
                && awareness.StatesOf(id) == Awareness.After(before, gone)
                && (forall e :: e in removed <==> e in Awareness.Emitted(before, gone))
      ensures id in old(hub.rooms) && hub.RoomOf(id) == [] ==>
                && removed == [] && awareness.StatesOf(id) == map[]
                && (id !in manager.docs <==> id !in old(manager.docs) || accepts)
      ensures id !in old(hub.rooms) ==>
                removed == [] && unchanged(manager) && unchanged(awareness) && checkpoint == old(checkpoint)
      ensures forall o :: o != id ==> manager.SlotOf(o) == old(manager.SlotOf(o))
      ensures forall o :: o != id ==> awareness.StatesOf(o) == old(awareness.StatesOf(o))
    {
      var known := id in hub.rooms;
      var last := hub.Leave(id, conn);
      if !known {
        return [];
      }
      removed := awareness.RemoveOwner(id, conn, now);
      if last {
        CheckpointAndRemove(accepts);
        awareness.DiscardSession(id);
        removed := [];
      }
    }

    /** `checkpoint_and_remove` of an empty room, its exceptions logged and dropped. */
    method CheckpointAndRemove(accepts: bool)
      requires Valid() && hub.RoomOf(id) == []
      modifies this`checkpoint, manager
      ensures Valid() && Held() == old(Held()) && row == old(row)
      ensures id !in manager.docs <==> id !in old(manager.docs) || accepts
      ensures checkpoint == if id in old(manager.docs) && accepts then Some(old(Held())) else old(checkpoint)
      ensures forall o :: o != id ==> manager.SlotOf(o) == old(manager.SlotOf(o))
    {
      assert Union([]) == {};
      var outcome, written := manager.CheckpointAndRemove(id, [], accepts);
      if written.Some? {
        checkpoint := written;
      }
    }

    /** `checkpoint_to_redis` of a loaded document, likewise. */
    method CheckpointToRedis(accepts: bool)
      requires Valid() && id in manager.docs
      modifies this`checkpoint, manager
      ensures Valid() && id in manager.docs && Held() == old(Held()) && row == old(row)
      ensures checkpoint == if accepts then Some(Held()) else old(checkpoint)
      ensures forall o :: o != id ==> manager.SlotOf(o) == old(manager.SlotOf(o))
    {
      assert Union([]) == {};
      var written := manager.CheckpointToRedis(id, [], accepts);
      if written.Some? {
        checkpoint := written;
      }
    }

    /** How a gated writer ends: Redis gets the document, which stays only for a populated room. */
    method Settle(accepts: bool)
      requires Valid() && id in manager.docs
      modifies this`checkpoint, manager
      ensures Valid() && View() == Checkpointed(old(View()), Crowded(), accepts) && Held() == old(Held())
      ensures forall o :: o != id ==> manager.SlotOf(o) == old(manager.SlotOf(o))
    {
      if hub.RoomOf(id) != [] {
        CheckpointToRedis(accepts);
      } else {
        CheckpointAndRemove(accepts);
      }
    }

    /**
     `save_session_document`: an authorized, well-formed save leaves PostgreSQL
     with everything the session held and the caller's state, keeps the document
     loaded exactly when somebody is connected (or Redis refused), and anything
     else leaves the stored row alone. When the commit raises, the merged state
     is still in memory.
     */
    method SaveSessionDocument(user: User, upload: Encoded, commits: bool, accepts: bool) returns (status: nat)
      requires Valid()
      modifies this`row, this`checkpoint, this`broadcasts, manager
      ensures Valid()
      ensures status == if upload.size == 0 then UNPROCESSABLE
                        else if upload.size > limit then TOO_LARGE
                        else if !table.active then GONE
                        else if !MayEdit(table.Row(), user) then FORBIDDEN
                        else if upload.content.None? then UNPROCESSABLE
                        else if !commits then SERVER_ERROR else OK
      ensures status == OK ==>
                && View() == AfterSave(old(View()), upload.content.value, Crowded(), accepts)
                && row == Some(old(Held()) + upload.content.value) && Held() == row.value
                && var room := Unrevoked(hub.RoomOf(id), hub.revoked);
                broadcasts == old(broadcasts) + [Update(room, upload.content.value), Saved(room, row.value, false)]
      ensures status != OK ==> broadcasts == old(broadcasts)
      ensures status == SERVER_ERROR || (status == UNPROCESSABLE && upload.size != 0) ==>
                View() == AfterFailedSave(old(View()), upload.content)
      ensures upload.size == 0 || status in {TOO_LARGE, GONE, FORBIDDEN} ==> View() == old(View()) && unchanged(manager)
      ensures forall o :: o != id ==> manager.SlotOf(o) == old(manager.SlotOf(o))
    {
      if upload.size == 0 {
        return UNPROCESSABLE;
      }
      if upload.size > limit {
        return TOO_LARGE;
      }
      var dirty;
      status, dirty := SaveUnderGate(user, upload.content, commits, accepts);
      if status == OK {
        var room := hub.RoomConnections(id);
        broadcasts := broadcasts + [Update(room, upload.content.value), Saved(room, row.value, dirty)];
      }
    }

    /** The part of it that holds the room gate; nothing arrives meanwhile, so the saved state is not dirty. */
    method SaveUnderGate(user: User, update: Option<Doc>, commits: bool, accepts: bool)
      returns (status: nat, dirty: bool)
      requires Valid()
      modifies this`row, this`checkpoint, manager
      ensures Valid()
      ensures status == if !table.active then GONE
                        else if !MayEdit(table.Row(), user) then FORBIDDEN
                        else if update.None? then UNPROCESSABLE
                        else if !commits then SERVER_ERROR else OK
      ensures status == OK ==> View() == AfterSave(old(View()), update.value, Crowded(), accepts) && !dirty
      ensures status in {SERVER_ERROR, UNPROCESSABLE} ==> View() == AfterFailedSave(old(View()), update)
      ensures status in {GONE, FORBIDDEN} ==> View() == old(View()) && unchanged(manager)
      ensures forall o :: o != id ==> manager.SlotOf(o) == old(manager.SlotOf(o))
    {
      var failure := RequireCurrentEditor(user);
      if failure.Some? {
        return failure.value, false;
      }
      LoadFromStorage();
      ghost var loaded := manager.docs[id];
      var ok := manager.ApplyUpdate(id, update);
      assert manager.SlotOf(id).live.Some?;
      if !ok {
        return UNPROCESSABLE, false;
      }
      assert manager.docs[id] == loaded + update.value;
      assert Union([]) == {};
      var saved;
      saved, dirty := manager.PersistToDb(id, row, checkpoint, [], commits);
      assert manager.docs[id] == loaded + update.value;
      if saved.None? {
        return SERVER_ERROR, false;
      }
      row := saved;
      Settle(accepts);
      status := OK;
    }

    /** How a gated reader ends: a document nobody is connected to goes back to Redis. */
    method EvictIfEmpty(accepts: bool)
      requires Valid() && id in manager.docs
      modifies this`checkpoint, manager
      ensures Valid() && View() == AfterReading(old(View()), Crowded(), accepts) && Held() == old(Held())
      ensures forall o :: o != id ==> manager.SlotOf(o) == old(manager.SlotOf(o))
    {
      if hub.RoomOf(id) == [] {
        CheckpointAndRemove(accepts);
      }
    }

    /**
     `create_snapshot_endpoint`: an editor stores the whole content under a new
     identifier, and the content stays as it was. When the content is too large
     or the insert raises, the document stays loaded.
     */
    method CreateSnapshot(user: User, snapshot: nat, sizeOf: Doc -> nat, inserts: bool, accepts: bool)
      returns (status: nat)
      requires Valid() && snapshot !in snapshots
      modifies this`checkpoint, this`snapshots, manager
      ensures Valid() && Held() == old(Held())
      ensures status == if !table.active then GONE
                        else if !MayEdit(table.Row(), user) then FORBIDDEN
                        else if sizeOf(old(Held())) > limit then TOO_LARGE
                        else if !inserts then SERVER_ERROR else OK
      ensures snapshots == if status == OK
                           then old(snapshots)[snapshot := Encoded(sizeOf(old(Held())), Some(old(Held())))]
                           else old(snapshots)
      ensures status == OK ==> View() == AfterReading(old(View()), Crowded(), accepts)
      ensures status in {TOO_LARGE, SERVER_ERROR} ==> View() == AfterFailedSave(old(View()), None)
      ensures status in {GONE, FORBIDDEN} ==> View() == old(View()) && unchanged(manager)
      ensures forall o :: o != id ==> manager.SlotOf(o) == old(manager.SlotOf(o))
    {
      var failure := RequireCurrentEditor(user);
      if failure.Some? {
        return failure.value;
      }
      LoadFromStorage();
      var state := manager.docs[id];
      if sizeOf(state) > limit {
        return TOO_LARGE;
      }
      if !inserts {
        return SERVER_ERROR;
      }
      snapshots := snapshots[snapshot := Encoded(sizeOf(state), Some(state))];
      EvictIfEmpty(accepts);
      status := OK;
    }

    /**
     `run_document`: the execution runs the text of everything the session
     holds, which stays as it was. A refused enqueue leaves no row behind.
     */
    method RunDocument(
      user: User, job: ExecutionLifecycle.JobId, textOf: Doc -> string, accepts: bool, push: ExecutionBackend.Write)
      returns (status: nat)
      requires Valid() && job !in executions.rows
      modifies this`checkpoint, manager, executions
      ensures Valid() && Held() == old(Held())
      ensures status == if !table.active then GONE
                        else if !MayEdit(table.Row(), user) then FORBIDDEN
                        else if push.Raised? then UNAVAILABLE else ACCEPTED
      ensures status == ACCEPTED ==>
                && executions.rows == old(executions.rows)[job :=
                     ExecutionBackend.Record(textOf(old(Held())), ExecutionStatus.QUEUED, "", "", None)]
                && executions.queue == old(executions.queue) + [ExecutionLifecycle.Job(job)]
      ensures status == UNAVAILABLE ==> executions.rows == old(executions.rows)
      ensures status in {ACCEPTED, UNAVAILABLE} ==> View() == AfterReading(old(View()), Crowded(), accepts)
      ensures status in {GONE, FORBIDDEN} ==>
                View() == old(View()) && unchanged(manager) && unchanged(executions)
      ensures forall o :: o != id ==> manager.SlotOf(o) == old(manager.SlotOf(o))
    {
      var failure := RequireCurrentEditor(user);
      if failure.Some? {
        return failure.value;
      }
      LoadFromStorage();
      var code := textOf(manager.docs[id]);
      EvictIfEmpty(accepts);
      var ok := executions.CreateQueuedExecution(job, code, push);
      status := if ok then ACCEPTED else UNAVAILABLE;
    }

    /**
     `restore_snapshot_endpoint`: afterwards the session shows the text of the
     snapshot. Restoring is an ordinary edit on top of what the session holds,
     made only when the text differs; nothing is taken away, and the room is
     sent the edit.
     */
    method RestoreSnapshot(
      user: User, snapshot: nat, textOf: Doc -> string, edit: (Doc, string) -> Doc, accepts: bool)
      returns (status: nat)
      requires Valid() && forall doc, text :: textOf(doc + edit(doc, text)) == text
      modifies this`checkpoint, this`broadcasts, manager
      ensures Valid() && row == old(row)
      ensures status == if !table.active then GONE
                        else if !MayEdit(table.Row(), user) then FORBIDDEN
                        else if snapshot !in snapshots then NOT_FOUND
                        else if snapshots[snapshot].size > limit then TOO_LARGE
                        else if snapshots[snapshot].content.None? then UNPROCESSABLE else OK
      ensures status == OK ==>
                var text := textOf(snapshots[snapshot].content.value);
                var made := if textOf(old(Held())) == text then None else Some(edit(old(Held()), text));
                && View() == AfterRestore(old(View()), made, Crowded(), accepts)
                && textOf(Held()) == text && Held() == Merged(old(Held()), made)
                && broadcasts == old(broadcasts) + [Update(Unrevoked(hub.RoomOf(id), hub.revoked), made.GetOr({}))]
      ensures status != OK ==> Held() == old(Held()) && checkpoint == old(checkpoint) && broadcasts == old(broadcasts)
      ensures forall o :: o != id ==> manager.SlotOf(o) == old(manager.SlotOf(o))
    {
      var failure := RequireCurrentEditor(user);
      if failure.Some? {
        return failure.value;
      }
      if snapshot !in snapshots {
        return NOT_FOUND;
      }
      if snapshots[snapshot].size > limit {
        return TOO_LARGE;
      }
      LoadFromStorage();
      if snapshots[snapshot].content.None? {
        return UNPROCESSABLE;
      }
      var made := RestoreLoaded(snapshots[snapshot].content.value, textOf, edit, accepts);
      var room := hub.RoomConnections(id);
      broadcasts := broadcasts + [Update(room, made.GetOr({}))];
      status := OK;
    }

    /** The edit on the loaded document and what follows it under the gate; None when the text was the same. */
    method RestoreLoaded(state: Doc, textOf: Doc -> string, edit: (Doc, string) -> Doc, accepts: bool)
      returns (made: Option<Doc>)
      requires Valid() && id in manager.docs && forall doc, text :: textOf(doc + edit(doc, text)) == text
      modifies this`checkpoint, manager
      ensures Valid() && textOf(Held()) == textOf(state)
      ensures made == if textOf(old(Held())) == textOf(state) then None else Some(edit(old(Held()), textOf(state)))
      ensures View() == AfterRestore(old(View()), made, Crowded(), accepts) && Held() == Merged(old(Held()), made)
      ensures forall o :: o != id ==> manager.SlotOf(o) == old(manager.SlotOf(o))
    {
      assert manager.SlotOf(id).live.Some?;
      var before := manager.docs[id];
      var ok := manager.RestoreText(id, Some(state), textOf, edit);
      assert manager.SlotOf(id).live.Some?;
      made := if textOf(before) == textOf(state) then None else Some(edit(before, textOf(state)));
      assert manager.docs[id] == Merged(before, made);
      Settle(accepts);
    }

    /**
     `update_member_role_endpoint`: only the owner may ask, and every accepted
     change is fenced, one to the role already held included.
     */
    method UpdateRole(caller: User, user: User, role: Role) returns (status: nat)
      modifies table, hub
      ensures status == if !old(table.active) then GONE
                        else if !MayManage(old(table.Row()), caller) then FORBIDDEN
                        else Response(Membership.UpdateMemberRole(old(table.Row()), user, role))
      ensures old(MayManage(table.Row(), caller)) ==>
                && (status == OK <==> (user == table.owner <==> role == Owner) && user in old(table.members))
                && (status == NOT_FOUND <==> (user == table.owner <==> role == Owner) && user !in old(table.members))
                && (status == CONFLICT <==> !(user == table.owner <==> role == Owner))
      ensures status == OK ==>
                && table.members == old(table.members)[user := role]
                && forall i :: old(|hub.closings|) <= i < |hub.closings| ==> hub.closings[i].code == WS_ROLE_CHANGED
      ensures status == OK ==>
                && Done(table.Row()) == Membership.UpdateMemberRole(old(table.Row()), user, role)
                && hub.RegistryOf(id) == FenceMember(old(hub.RegistryOf(id)), user, RoleChanged)
      ensures status != OK ==> table.Row() == old(table.Row()) && hub.RegistryOf(id) == old(hub.RegistryOf(id))
      ensures old(SingleOwner(table.Row())) ==> SingleOwner(table.Row())
      ensures hub.OthersKept(id)
    {
      var denied := CheckRole(caller, Owner);
      if denied.Some? {
        return denied.value;
      }
      var error := table.UpdateMemberRole(user, role);
      if error.Some? {
        return StatusFor(error.value);
      }
      ghost var before := hub.closings;
      var targets := hub.InvalidateMember(id, user, RoleChanged);
      assert hub.closings == before + Closings(targets, RoleChanged);
      return OK;
    }

    /** `remove_member_endpoint`. */
    method Remove(caller: User, user: User) returns (status: nat)
      modifies table, hub
      ensures status == if !old(table.active) then GONE
                        else if !MayManage(old(table.Row()), caller) then FORBIDDEN
                        else Response(Membership.RemoveMember(old(table.Row()), user))
      ensures old(MayManage(table.Row(), caller)) ==>
                && (status == OK <==> user != table.owner && user in old(table.members))
                && (status == NOT_FOUND <==> user != table.owner && user !in old(table.members))
                && (status == CONFLICT <==> user == table.owner)
      ensures status == OK ==>
                && table.members == old(table.members) - {user}
                && forall i :: old(|hub.closings|) <= i < |hub.closings| ==> hub.closings[i].code == WS_FORBIDDEN
      ensures status == OK ==>
                && Done(table.Row()) == Membership.RemoveMember(old(table.Row()), user)
                && hub.RegistryOf(id) == FenceMember(old(hub.RegistryOf(id)), user, NotMember)
      ensures status != OK ==> table.Row() == old(table.Row()) && hub.RegistryOf(id) == old(hub.RegistryOf(id))
      ensures old(SingleOwner(table.Row())) ==> SingleOwner(table.Row())
      ensures hub.OthersKept(id)
    {
      var denied := CheckRole(caller, Owner);
      if denied.Some? {
        return denied.value;
      }
      var error := table.RemoveMember(user);
      if error.Some? {
        return StatusFor(error.value);
      }
      ghost var before := hub.closings;
      var targets := hub.InvalidateMember(id, user, NotMember);
      assert hub.closings == before + Closings(targets, NotMember);
      return OK;
    }

    /** `close_session_endpoint`: nobody loses a membership, and everybody's connection is stopped. */
    method Close(caller: User) returns (status: nat)
      modifies table, hub
      ensures status == if !old(table.active) then GONE
                        else if !MayManage(old(table.Row()), caller) then FORBIDDEN else OK
      ensures status == OK ==>
                && table.Row() == old(table.Row()).(active := false)
                && hub.RegistryOf(id) == FenceSession(old(hub.RegistryOf(id)))
      ensures status == OK ==>
                forall i :: old(|hub.closings|) <= i < |hub.closings| ==> hub.closings[i].code == WS_SESSION_CLOSED
      ensures status != OK ==> table.Row() == old(table.Row()) && hub.RegistryOf(id) == old(hub.RegistryOf(id))
      ensures hub.OthersKept(id)
    {
      var denied := CheckRole(caller, Owner);
      if denied.Some? {
        return denied.value;
      }
      // Only another close that came in between could be refused now.
      var error := table.CloseSession();
      assert error.None?;
      ghost var before := hub.closings;
      var targets := hub.CloseSession(id);
      assert hub.closings == before + Closings(targets, SessionClosed);
      return OK;
    }
  }
}
