/**
 The module dictionaries of websocket.py as one object, for all sessions. Each
 method is a segment that runs under the room lock or without awaiting, and
 does to its session's registry exactly what module RoomRegistry says.
 */
module RoomHub {
  import opened Prelude
  import opened Membership
  import opened RoomRegistry

  /** The connections of one user, or of everybody, in room order. */
  function TargetsOf(room: seq<Entry>, user: Option<User>): seq<ConnId> {
    if room == [] then []
    else (if user.None? || room[0].user == user.value then [room[0].conn] else []) + TargetsOf(room[1..], user)
  }

  lemma {:induction false} TargetsAreMembers(room: seq<Entry>, user: User)
    ensures forall c :: c in TargetsOf(room, Some(user)) <==> c in ConnsOf(room, user)
  {
    if room != [] {
      TargetsAreMembers(room[1..], user);
      assert room == [room[0]] + room[1..];
      assert ConnsOf(room, user) == (if room[0].user == user then {room[0].conn} else {}) + ConnsOf(room[1..], user);
    }
  }

  lemma {:induction false} TargetsAreAll(room: seq<Entry>)
    ensures forall c :: c in TargetsOf(room, None) <==> c in AllConns(room)
  {
    if room != [] {
      TargetsAreAll(room[1..]);
      assert room == [room[0]] + room[1..];
      assert AllConns(room) == {room[0].conn} + AllConns(room[1..]);
    }
  }

  /** A room without what has been revoked, in order. */
  function Unrevoked(room: seq<Entry>, revoked: map<ConnId, Reason>): (rest: seq<Entry>)
    ensures forall e :: e in rest <==> e in room && e.conn !in revoked
  {
    if room == [] then []
    else
      var last := room[|room| - 1];
      Unrevoked(room[..|room| - 1], revoked) + (if last.conn in revoked then [] else [last])
  }

  /** A close frame sent to a connection. */
  datatype Closing = Closing(conn: ConnId, code: nat)

  function Closings(targets: seq<ConnId>, reason: Reason): (frames: seq<Closing>)
    ensures |frames| == |targets|
    ensures forall i :: 0 <= i < |frames| ==> frames[i] == Closing(targets[i], CloseCode(reason))
  {
    seq(|targets|, i requires 0 <= i < |targets| => Closing(targets[i], CloseCode(reason)))
  }

  class Hub {
    var rooms: map<string, seq<Entry>>
    /** The source's (session, user) keys, one level at a time. */
    var memberInvalidations: map<string, map<User, Invalidation>>
    var sessionInvalidations: map<string, Invalidation>
    var stamps: map<ConnId, Stamp>
    var revoked: map<ConnId, Reason>
    /** Every close frame sent so far. */
    var closings: seq<Closing>

    constructor ()
      ensures closings == [] && forall id :: RegistryOf(id) == EMPTY_REGISTRY
    {
      rooms, memberInvalidations, sessionInvalidations := map[], map[], map[];
      stamps, revoked, closings := map[], map[], [];
    }

    function RoomOf(id: string): seq<Entry>
      reads this
    {
      if id in rooms then rooms[id] else []
    }

    function MembersOf(id: string): map<User, Invalidation>
      reads this
    {
      if id in memberInvalidations then memberInvalidations[id] else map[]
    }

    /** One session's registry; stamps and revocations are keyed by connection and shared. */
    ghost function RegistryOf(id: string): Registry
      reads this
    {
      Registry(RoomOf(id),
               MembersOf(id),
               if id in sessionInvalidations then Some(sessionInvalidations[id]) else None,
               stamps, revoked)
    }

    /** What a step for one session must leave alone in the others. */
    twostate predicate OthersKept(id: string)
      reads this
    {
      forall o :: o != id ==>
        && RoomOf(o) == old(RoomOf(o))
        && MembersOf(o) == old(MembersOf(o))
        && RegistryOf(o).sessionInvalidation == old(RegistryOf(o)).sessionInvalidation
    }

    /** The stamp that authentication takes before its first database read. */
    method TakeStamp(id: string, user: User) returns (stamp: Stamp)
      ensures stamp == StampNow(RegistryOf(id), user)
      ensures stamp.member == if user in MembersOf(id) then MembersOf(id)[user].version else 0
      ensures stamp.session == if id in sessionInvalidations then sessionInvalidations[id].version else 0
    {
      var member := if user in MembersOf(id) then MembersOf(id)[user].version else 0;
      var session := if id in sessionInvalidations then sessionInvalidations[id].version else 0;
      return Stamp(member, session);
    }

    /** `_authorization_failure`. */
    method AuthorizationFailure(id: string, user: User, conn: ConnId) returns (failure: Option<Reason>)
      ensures failure == Failure(RegistryOf(id), user, conn)
    {
      if conn in revoked {
        return Some(revoked[conn]);
      }
      if conn !in stamps {
        return None;
      }
      var stamp := stamps[conn];
      if id in sessionInvalidations && sessionInvalidations[id].version > stamp.session {
        return Some(sessionInvalidations[id].reason);
      }
      if user in MembersOf(id) && MembersOf(id)[user].version > stamp.member {
        return Some(MembersOf(id)[user].reason);
      }
      return None;
    }

    /** `_close_if_invalidated`: revoke and close a connection whose authorization is stale. */
    method CloseIfInvalidated(id: string, user: User, conn: ConnId) returns (closed: bool)
      modifies this`revoked, this`closings
      ensures var failure := Failure(old(RegistryOf(id)), user, conn);
              && closed == failure.Some?
              && RegistryOf(id) == (if closed then Revoke(old(RegistryOf(id)), {conn}, failure.value)
                                    else old(RegistryOf(id)))
              && closings == old(closings) + (if closed then [Closing(conn, CloseCode(failure.value))] else [])
      ensures OthersKept(id)
    {
      var failure := AuthorizationFailure(id, user, conn);
      if failure.None? {
        return false;
      }
      revoked := revoked[conn := failure.value];
      closings := closings + [Closing(conn, CloseCode(failure.value))];
      return true;
    }

    /** Mark every target revoked, as both fences do. */
    method RevokeEach(targets: seq<ConnId>, ghost conns: set<ConnId>, reason: Reason)
      requires forall c :: c in targets <==> c in conns
      modifies this`revoked
      ensures revoked == Revoked(old(revoked), conns, reason)
    {
      ghost var seen: set<ConnId> := {};
      for i := 0 to |targets|
        invariant forall c :: c in seen <==> c in targets[..i]
        invariant revoked == Revoked(old(revoked), seen, reason)
      {
        assert targets[..i + 1] == targets[..i] + [targets[i]];
        seen := seen + {targets[i]};
        revoked := revoked[targets[i] := reason];
      }
      assert targets[..|targets|] == targets;
      assert seen == conns;
    }

    /** `invalidate_member_connections`: bump the version, then revoke and close who is in the room. */
    method InvalidateMember(id: string, user: User, reason: Reason) returns (targets: seq<ConnId>)
      modifies this
      ensures RegistryOf(id) == FenceMember(old(RegistryOf(id)), user, reason)
      ensures user in MembersOf(id) && MembersOf(id)[user].reason == reason
      ensures MembersOf(id)[user].version ==
                (if user in old(MembersOf(id)) then old(MembersOf(id))[user].version else 0) + 1
      ensures targets == TargetsOf(RoomOf(id), Some(user))
      ensures closings == old(closings) + Closings(targets, reason)
      ensures forall c :: c in targets <==> c in ConnsOf(RoomOf(id), user)
      ensures OthersKept(id)
    {
      var version := if user in MembersOf(id) then MembersOf(id)[user].version + 1 else 1;
      memberInvalidations := memberInvalidations[id := MembersOf(id)[user := Invalidation(version, reason)]];
      targets := TargetsOf(RoomOf(id), Some(user));
      TargetsAreMembers(RoomOf(id), user);
      RevokeEach(targets, ConnsOf(RoomOf(id), user), reason);
      closings := closings + Closings(targets, reason);
    }

    /** `close_session_connections`. */
    method CloseSession(id: string) returns (targets: seq<ConnId>)
      modifies this
      ensures RegistryOf(id) == FenceSession(old(RegistryOf(id)))
      ensures id in sessionInvalidations && sessionInvalidations[id].reason == SessionClosed
      ensures sessionInvalidations[id].version ==
                (if id in old(sessionInvalidations) then old(sessionInvalidations)[id].version else 0) + 1
      ensures targets == TargetsOf(RoomOf(id), None)
      ensures closings == old(closings) + Closings(targets, SessionClosed)
      ensures forall c :: c in targets <==> c in AllConns(RoomOf(id))
      ensures OthersKept(id)
    {
      var version := if id in sessionInvalidations then sessionInvalidations[id].version + 1 else 1;
      sessionInvalidations := sessionInvalidations[id := Invalidation(version, SessionClosed)];
      targets := TargetsOf(RoomOf(id), None);
      TargetsAreAll(RoomOf(id));
      RevokeEach(targets, AllConns(RoomOf(id)), SessionClosed);
      closings := closings + Closings(targets, SessionClosed);
    }

    /** `_connection_stamps[websocket] = stamp`. */
    method RegisterStamp(id: string, conn: ConnId, stamp: Stamp)
      modifies this`stamps
      ensures RegistryOf(id) == Register(old(RegistryOf(id)), conn, stamp)
      ensures stamps == old(stamps)[conn := stamp]
      ensures OthersKept(id)
    {
      stamps := stamps[conn := stamp];
    }

    /** The end of `_join_room`. */
    method Join(id: string, entry: Entry)
      modifies this`rooms
      ensures RegistryOf(id) == Append(old(RegistryOf(id)), entry)
      ensures RoomOf(id) == old(RoomOf(id)) + [entry]
      ensures OthersKept(id)
    {
      rooms := rooms[id := RoomOf(id) + [entry]];
    }

    /** `_leave_room` before any eviction; says whether that emptied the room. */
    method Leave(id: string, conn: ConnId) returns (last: bool)
      modifies this`rooms, this`stamps, this`revoked
      ensures RegistryOf(id) == Depart(old(RegistryOf(id)), conn)
      ensures last <==> id in old(rooms) && RoomOf(id) == []
      ensures OthersKept(id)
    {
      stamps, revoked := stamps - {conn}, revoked - {conn};
      if id !in rooms {
        return false;
      }
      last := RemoveFromRoom(id, conn);
    }

    /** The room without one connection; an empty room has no entry. */
    method RemoveFromRoom(id: string, conn: ConnId) returns (last: bool)
      requires id in rooms
      modifies this`rooms
      ensures RoomOf(id) == Without(old(RoomOf(id)), conn)
      ensures last <==> RoomOf(id) == []
      ensures forall o :: o != id ==> RoomOf(o) == old(RoomOf(o))
    {
      rooms := rooms[id := Without(rooms[id], conn)];
      last := rooms[id] == [];
      if last {
        rooms := rooms - {id};
      }
    }

    /** `get_room_connections`: the room without what has been revoked. */
    method RoomConnections(id: string) returns (connections: seq<Entry>)
      ensures connections == Unrevoked(RoomOf(id), revoked)
    {
      var room := RoomOf(id);
      connections := [];
      for i := 0 to |room|
        invariant connections == Unrevoked(room[..i], revoked)
      {
        assert room[..i + 1][..i] == room[..i];
        if room[i].conn !in revoked {
          connections := connections + [room[i]];
        }
      }
      assert room[..|room|] == room;
    }
  }
}
