/**
 One session's slice of the WebSocket module: its room, the versioned
 invalidations that fence cached authorizations, and the stamps and
 revocations of its connections.
 */
module RoomRegistry {
  import opened Prelude
  import opened Membership

  type ConnId = nat

  /** Why a connection is closed; `CloseCode` gives the wire value. */
  datatype Reason = RoleChanged | NotMember | SessionClosed

  function CloseCode(reason: Reason): nat {
    match reason
    case RoleChanged => 4001
    case NotMember => 4403
    case SessionClosed => 4410
  }

  datatype Stamp = Stamp(member: nat, session: nat)

  datatype Invalidation = Invalidation(version: nat, reason: Reason)

  datatype Entry = Entry(conn: ConnId, user: User, role: Role)

  datatype Registry = Registry(
    room: seq<Entry>,
    memberInvalidations: map<User, Invalidation>,
    sessionInvalidation: Option<Invalidation>,
    stamps: map<ConnId, Stamp>,
    revoked: map<ConnId, Reason>)

  const EMPTY_REGISTRY := Registry([], map[], None, map[], map[])

  function MemberVersion(r: Registry, user: User): nat {
    if user in r.memberInvalidations then r.memberInvalidations[user].version else 0
  }

  function SessionVersion(r: Registry): nat {
    if r.sessionInvalidation.Some? then r.sessionInvalidation.value.version else 0
  }

  /** The stamp `_authenticate_ws` takes before it reads the database. */
  function StampNow(r: Registry, user: User): Stamp {
    Stamp(MemberVersion(r, user), SessionVersion(r))
  }

  /** `_authorization_failure`: a connection without a stamp passes. */
  function Failure(r: Registry, user: User, conn: ConnId): Option<Reason> {
    if conn in r.revoked then Some(r.revoked[conn])
    else if conn !in r.stamps then None
    else if SessionVersion(r) > r.stamps[conn].session then Some(r.sessionInvalidation.value.reason)
    else if MemberVersion(r, user) > r.stamps[conn].member then Some(r.memberInvalidations[user].reason)
    else None
  }

  function Revoked(revoked: map<ConnId, Reason>, conns: set<ConnId>, reason: Reason): map<ConnId, Reason> {
    map c | c in revoked.Keys + conns :: if c in conns then reason else revoked[c]
  }

  function Revoke(r: Registry, conns: set<ConnId>, reason: Reason): Registry {
    r.(revoked := Revoked(r.revoked, conns, reason))
  }

  function ConnsOf(room: seq<Entry>, user: User): set<ConnId> {
    set e | e in room && e.user == user :: e.conn
  }

  function AllConns(room: seq<Entry>): set<ConnId> {
    set e | e in room :: e.conn
  }

  function FenceMember(r: Registry, user: User, reason: Reason): Registry {
    Revoke(r.(memberInvalidations := r.memberInvalidations[user := Invalidation(MemberVersion(r, user) + 1, reason)]),
           ConnsOf(r.room, user), reason)
  }

  function FenceSession(r: Registry): Registry {
    Revoke(r.(sessionInvalidation := Some(Invalidation(SessionVersion(r) + 1, SessionClosed))),
           AllConns(r.room), SessionClosed)
  }

  function Register(r: Registry, conn: ConnId, stamp: Stamp): Registry {
    r.(stamps := r.stamps[conn := stamp])
  }

  function Append(r: Registry, entry: Entry): Registry {
    r.(room := r.room + [entry])
  }

  /** Forget a connection's stamp and revocation. */
  function Forget(r: Registry, conn: ConnId): Registry {
    r.(stamps := r.stamps - {conn}, revoked := r.revoked - {conn})
  }

  function Without(room: seq<Entry>, conn: ConnId): (rest: seq<Entry>)
    ensures forall e :: e in rest <==> e in room && e.conn != conn
  {
    if room == [] then []
    else if room[0].conn == conn then Without(room[1..], conn)
    else [room[0]] + Without(room[1..], conn)
  }

  /** `_leave_room` up to the eviction of the last document. */
  function Depart(r: Registry, conn: ConnId): Registry {
    Forget(r, conn).(room := Without(r.room, conn))
  }

  /**
   A member fence stops every connection of that member whose stamp predates
   it, joined or not, and gives it the fence's own reason unless it was stopped
   before.
   */
  lemma MemberFenceStopsMember(r: Registry, user: User, reason: Reason, conn: ConnId)
    requires conn in r.stamps && r.stamps[conn].member <= MemberVersion(r, user)
    ensures Failure(FenceMember(r, user, reason), user, conn).Some?
    ensures conn in ConnsOf(r.room, user) ==> Failure(FenceMember(r, user, reason), user, conn) == Some(reason)
    ensures conn !in r.revoked && SessionVersion(r) <= r.stamps[conn].session ==>
              Failure(FenceMember(r, user, reason), user, conn) == Some(reason)
  {
  }

  /** It changes nothing for the connections of anybody else. */
  lemma MemberFenceSparesOthers(r: Registry, user: User, reason: Reason, conn: ConnId, other: User)
    requires other != user && conn !in ConnsOf(r.room, user)
    ensures Failure(FenceMember(r, user, reason), other, conn) == Failure(r, other, conn)
  {
  }

  /** Closing a session stops every stamped connection to it, for every user. */
  lemma SessionFenceStopsAll(r: Registry, user: User, conn: ConnId)
    requires conn in r.stamps && r.stamps[conn].session <= SessionVersion(r)
    ensures Failure(FenceSession(r), user, conn).Some?
    ensures conn in AllConns(r.room) || conn !in r.revoked ==>
              Failure(FenceSession(r), user, conn) == Some(SessionClosed)
  {
  }

  /** Which verdict: a revocation keeps its reason, then a newer close of the session, then a newer fence. */
  lemma VerdictIs(r: Registry, user: User, conn: ConnId)
    ensures conn in r.revoked ==> Failure(r, user, conn) == Some(r.revoked[conn])
    ensures conn !in r.revoked && conn in r.stamps && SessionVersion(r) > r.stamps[conn].session ==>
              Failure(r, user, conn) == Some(r.sessionInvalidation.value.reason)
    ensures conn !in r.revoked && conn in r.stamps && SessionVersion(r) <= r.stamps[conn].session &&
            MemberVersion(r, user) > r.stamps[conn].member ==>
              Failure(r, user, conn) == Some(r.memberInvalidations[user].reason)
    ensures Failure(r, user, conn).None? <==>
              conn !in r.revoked &&
              (conn in r.stamps ==>
                 && (r.sessionInvalidation.Some? ==> r.sessionInvalidation.value.version <= r.stamps[conn].session)
                 && (user in r.memberInvalidations ==>
                       r.memberInvalidations[user].version <= r.stamps[conn].member))
  {
  }

  /** Leaving keeps the order of the others. */
  lemma {:induction false} WithoutKeepsOrder(first: seq<Entry>, rest: seq<Entry>, conn: ConnId)
    ensures Without(first + rest, conn) == Without(first, conn) + Without(rest, conn)
    ensures forall e :: Without([e], conn) == if e.conn == conn then [] else [e]
  {
    if first == [] {
      assert first + rest == rest;
    } else {
      assert (first + rest)[0] == first[0] && (first + rest)[1..] == first[1..] + rest;
      WithoutKeepsOrder(first[1..], rest, conn);
    }
  }

  /** Reconnecting after a fence, the stamp taken afterwards is accepted again. */
  lemma FreshStampPasses(r: Registry, user: User, conn: ConnId)
    requires conn !in r.revoked
    ensures Failure(Register(r, conn, StampNow(r, user)), user, conn).None?
  {
  }
}
