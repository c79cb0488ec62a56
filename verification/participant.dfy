/**
  Chat participants and their roles.  A role's raw value is its upper-case
  name; the three permissions are fixed per role.
 */
module Participants {
  import opened Wrappers

  datatype ParticipantRole = Owner | Moderator | Participant | Viewer

  datatype ChatParticipant = ChatParticipant(
    id: string,
    chatId: string,
    userId: string,
    role: ParticipantRole,
    joinedAt: int,
    invitedBy: Option<string>,
    inviteToken: Option<string>,
    inviteEmail: Option<string>,
    isActive: bool)

  function RoleRaw(role: ParticipantRole): string
  {
    match role
    case Owner => "OWNER"
    case Moderator => "MODERATOR"
    case Participant => "PARTICIPANT"
    case Viewer => "VIEWER"
  }

  /** `ParticipantRole(rawValue:)`: exactly the inverse of `RoleRaw`, nil for any other string. */
  function RoleFromRaw(s: string): (r: Option<ParticipantRole>)
    ensures forall role :: r == Some(role) <==> RoleRaw(role) == s
  {
    if s == "OWNER" then Some(Owner)
    else if s == "MODERATOR" then Some(Moderator)
    else if s == "PARTICIPANT" then Some(Participant)
    else if s == "VIEWER" then Some(Viewer)
    else None
  }

  /** Distinct roles have distinct raw values, and each raw value reads back as its role. */
  lemma RoleRawRoundTrip(a: ParticipantRole, b: ParticipantRole)
    ensures RoleFromRaw(RoleRaw(a)) == Some(a)
    ensures RoleRaw(a) == RoleRaw(b) ==> a == b
  {
    assert RoleFromRaw(RoleRaw(a)) == Some(a);
    if RoleRaw(a) == RoleRaw(b) {
      assert RoleFromRaw(RoleRaw(b)) == Some(b);
    }
  }

  function RoleDisplayName(role: ParticipantRole): string
  {
    match role
    case Owner => "Owner"
    case Moderator => "Moderator"
    case Participant => "Participant"
    case Viewer => "Viewer"
  }

  predicate CanEdit(role: ParticipantRole)
  {
    match role
    case Owner | Moderator => true
    case Participant | Viewer => false
  }

  predicate CanInvite(role: ParticipantRole)
  {
    match role
    case Owner | Moderator => true
    case Participant | Viewer => false
  }

  predicate CanDelete(role: ParticipantRole)
  {
    match role
    case Owner => true
    case Moderator | Participant | Viewer => false
  }

  /**
    The permissions form a ladder: only the owner may delete, owners and
    moderators may edit, and inviting is allowed exactly when editing is.
   */
  lemma PermissionLadder(role: ParticipantRole)
    ensures CanEdit(role) <==> role == Owner || role == Moderator
    ensures CanInvite(role) == CanEdit(role)
    ensures CanDelete(role) <==> role == Owner
    ensures CanDelete(role) ==> CanEdit(role) && CanInvite(role)
  {
  }

  /** The hash combines only the id, so it ignores every other field. */
  function Hash(p: ChatParticipant, hasher: string -> int): int
  {
    hasher(p.id)
  }

  lemma HashOnlyId(a: ChatParticipant, b: ChatParticipant, hasher: string -> int)
    requires a.id == b.id
    ensures Hash(a, hasher) == Hash(b, hasher)
  {
  }
}
