/**
  The signed-in user's record and the two names derived from it: the display
  name and the initials.  Characters are taken with `prefix(1)`, so an empty
  name contributes nothing rather than being skipped.
 */
module Users {
  import opened Wrappers
  import opened Text
  import opened Chats
  import opened Projects
  import opened Participants
  import opened SharedLinks

  datatype User = User(
    id: string,
    clerkId: string,
    email: Option<string>,
    firstName: Option<string>,
    lastName: Option<string>,
    imageUrl: Option<string>,
    createdAt: int,
    updatedAt: int,
    hideSharedWarning: bool,
    chats: Option<seq<Chat>>,
    projects: Option<seq<Project>>,
    participations: Option<seq<ChatParticipant>>,
    sharedLinks: Option<seq<SharedLink>>)

  /** "first last" with both names, else the first name, else the email, else "User". */
  function DisplayName(u: User): (name: string)
    ensures u.firstName.Some? && u.lastName.Some? ==>
              |name| == |u.firstName.value| + 1 + |u.lastName.value| &&
              name[..|u.firstName.value|] == u.firstName.value && name[|u.firstName.value|] == ' ' &&
              name[|u.firstName.value| + 1..] == u.lastName.value
    ensures u.firstName.Some? && u.lastName.None? ==> name == u.firstName.value
    ensures u.firstName.None? ==> name == u.email.GetOr("User")
  {
    if u.firstName.Some? && u.lastName.Some? then u.firstName.value + " " + u.lastName.value
    else if u.firstName.Some? then u.firstName.value
    else if u.email.Some? then u.email.value
    else "User"
  }

  /** One leading character of each name, else of the email, else "U". */
  function Initials(u: User): (r: string)
    ensures |r| <= 2
    ensures u.firstName.None? && u.email.None? ==> r == "U"
  {
    if u.firstName.Some? && u.lastName.Some? then Prefix(u.firstName.value, 1) + Prefix(u.lastName.value, 1)
    else if u.firstName.Some? then Prefix(u.firstName.value, 1)
    else if u.email.Some? then Prefix(u.email.value, 1)
    else "U"
  }

  /** Without a first name, the last name changes neither the display name nor the initials. */
  lemma LastNameNeedsFirstName(u: User, lastName: Option<string>)
    requires u.firstName.None?
    ensures DisplayName(u.(lastName := lastName)) == DisplayName(u)
    ensures Initials(u.(lastName := lastName)) == Initials(u)
  {
  }

  /**
    The initials are the leading letters of the display name's words: its
    first character, and with a last name the character after the space.
   */
  lemma InitialsFromDisplayName(u: User)
    requires u.firstName.Some? ==> u.firstName.value != ""
    requires u.firstName.None? && u.email.Some? ==> u.email.value != ""
    ensures Initials(u) != "" && Initials(u)[0] == DisplayName(u)[0]
    ensures u.firstName.Some? && u.lastName.Some? && u.lastName.value != "" ==>
              |Initials(u)| == 2 && Initials(u)[1] == DisplayName(u)[|u.firstName.value| + 1]
  {
    var name := DisplayName(u);
    if u.firstName.Some? && u.lastName.Some? {
      var first := u.firstName.value;
      assert name[0] == name[..|first|][0];
      if u.lastName.value != "" {
        assert name[|first| + 1] == name[|first| + 1..][0];
      }
    }
  }

  /** Empty names are not skipped: two empty names give empty initials whatever the email. */
  lemma EmptyNamesGiveNoInitials(u: User)
    requires u.firstName == Some("") && u.lastName == Some("")
    ensures Initials(u) == ""
  {
  }
}
