/**
  The sidebar footer's avatar letters (`getInitials`).  Unlike the user
  record's initials, it skips empty names and upper-cases the email letter.
  The signed-in account is passed in; nil means nobody is signed in.
 */
module ProfileFooter {
  import opened Wrappers
  import opened Text
  import Users

  /** What the footer reads from the signed-in account. */
  datatype Account = Account(firstName: Option<string>, lastName: Option<string>, emailAddresses: seq<string>)

  function FirstNameLetter(account: Option<Account>): string
  {
    if account.Some? && account.value.firstName.Some? then Prefix(account.value.firstName.value, 1) else ""
  }

  function LastNameLetter(account: Option<Account>): string
  {
    if account.Some? && account.value.lastName.Some? then Prefix(account.value.lastName.value, 1) else ""
  }

  function GetInitials(account: Option<Account>): (r: string)
    ensures |r| <= 2
    ensures account.None? ==> r == "U"
    ensures FirstNameLetter(account) != "" && LastNameLetter(account) != "" ==>
              |r| == 2 && r[0] == account.value.firstName.value[0] && r[1] == account.value.lastName.value[0]
    ensures FirstNameLetter(account) != "" && LastNameLetter(account) == "" ==>
              r == [account.value.firstName.value[0]]
    ensures FirstNameLetter(account) == "" && account.Some? && account.value.emailAddresses != [] ==>
              r == Uppercased(Prefix(account.value.emailAddresses[0], 1))
    ensures FirstNameLetter(account) == "" && (account.None? || account.value.emailAddresses == []) ==> r == "U"
  {
    var first := FirstNameLetter(account);
    var last := LastNameLetter(account);
    if first != "" && last != "" then first + last
    else if first != "" then first
    else if account.Some? && account.value.emailAddresses != [] then
      Uppercased(Prefix(account.value.emailAddresses[0], 1))
    else "U"
  }

  /** The user record the same account describes. */
  function AsUser(account: Account, u: Users.User): Users.User
  {
    u.(firstName := account.firstName, lastName := account.lastName,
       email := if account.emailAddresses != [] then Some(account.emailAddresses[0]) else None)
  }

  /**
    With two non-empty names both computations give the same two letters; with
    an empty first name they differ: the record still shows the last name's
    letter, while the footer skips both names and, without an email, shows "U".
   */
  lemma FooterAgreesWithUserInitials(account: Account, u: Users.User)
    ensures account.firstName.Some? && account.firstName.value != "" &&
            account.lastName.Some? && account.lastName.value != "" ==>
              GetInitials(Some(account)) == Users.Initials(AsUser(account, u))
    ensures account.firstName == Some("") && account.lastName.Some? && account.lastName.value != "" &&
            account.emailAddresses == [] ==>
              Users.Initials(AsUser(account, u)) == [account.lastName.value[0]] &&
              GetInitials(Some(account)) == "U"
  {
    var v := AsUser(account, u);
    if account.firstName.Some? && account.firstName.value != "" &&
       account.lastName.Some? && account.lastName.value != "" {
      var r := GetInitials(Some(account));
      assert r == [account.firstName.value[0], account.lastName.value[0]];
      assert Prefix(account.firstName.value, 1) == [account.firstName.value[0]];
      assert Prefix(account.lastName.value, 1) == [account.lastName.value[0]];
    }
    if account.firstName == Some("") && account.lastName.Some? && account.lastName.value != "" {
      assert Prefix("", 1) == "";
      assert Prefix(account.lastName.value, 1) == [account.lastName.value[0]];
      assert Users.Initials(v) == "" + [account.lastName.value[0]];
    }
  }
}
