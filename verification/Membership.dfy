/** Roles, the session row and the membership rules of `sessions/service.py`. */
module Membership {

  type User = nat

  datatype Role = Viewer | Editor | Owner

  function Rank(role: Role): nat {
    match role
    case Viewer => 0
    case Editor => 1
    case Owner => 2
  }

  datatype SessionRow = SessionRow(owner: User, active: bool, members: map<User, Role>)

  datatype ServiceError = NotFound | Inactive | Conflict

  datatype Outcome = Done(row: SessionRow) | Refused(error: ServiceError)

  function CreateSession(owner: User): SessionRow {
    SessionRow(owner, true, map[owner := Owner])
  }

  function AddMember(row: SessionRow, user: User, role: Role, known: bool): Outcome {
    if !row.active then Refused(Inactive)
    else if role == Owner || user == row.owner then Refused(Conflict)
    else if !known then Refused(NotFound)
    else if user in row.members then Refused(Conflict)
    else Done(row.(members := row.members[user := role]))
  }

  function UpdateMemberRole(row: SessionRow, user: User, role: Role): Outcome {
    if !row.active then Refused(Inactive)
    else if (user == row.owner) != (role == Owner) then Refused(Conflict)
    else if user !in row.members then Refused(NotFound)
    else Done(row.(members := row.members[user := role]))
  }

  function RemoveMember(row: SessionRow, user: User): Outcome {
    if !row.active then Refused(Inactive)
    else if user == row.owner then Refused(Conflict)
    else if user !in row.members then Refused(NotFound)
    else Done(row.(members := row.members - {user}))
  }

  function CloseSession(row: SessionRow): Outcome {
    if !row.active then Refused(Inactive) else Done(row.(active := false))
  }

  /** The authority that saves, restores and document frames need. */
  predicate MayEdit(row: SessionRow, user: User) {
    row.active && user in row.members && Rank(row.members[user]) >= Rank(Editor)
  }

  /** Editors and the owner may edit, viewers and strangers may not, and nobody may in a closed session. */
  lemma MayEditIff(row: SessionRow, user: User)
    ensures MayEdit(row, user) <==>
              row.active && user in row.members && (row.members[user] == Editor || row.members[user] == Owner)
  {
  }

  /** The order of the roles: every role may do what the ones below it may. */
  lemma RolesAreOrdered(role: Role, needed: Role)
    ensures Rank(role) >= Rank(needed) <==> needed == Viewer || role == Owner || role == needed
  {
  }

  /** The authority that membership changes need: the owner role, and only as the canonical owner. */
  predicate MayManage(row: SessionRow, user: User) {
    row.active && user == row.owner && user in row.members && row.members[user] == Owner
  }

  /** The canonical owner, and nobody else, holds the owner role. */
  ghost predicate SingleOwner(row: SessionRow) {
    forall u :: (u in row.members && row.members[u] == Owner) <==> u == row.owner
  }
}
