/** The signed-in user's badge in the page header (components/Header.tsx):
    the initials in the avatar, the greeting name and the role label. */
module Header {
  import opened Text
  import opened Domain
  import opened Common

  /** `s.slice(0, 2)` */
  function FirstTwo(s: string): (r: string)
    ensures r <= s && |r| == (if |s| < 2 then |s| else 2)
  {
    s[..if |s| < 2 then |s| else 2]
  }

  /** `getUserInitials()`: the first letters of the first and last names,
      else the first two letters of the first name, else of the user name,
      else `U`; always upper-cased. */
  function Initials(user: Option<User>): (r: string)
    ensures 1 <= |r| <= 2 && NoLowerCase(r)
    ensures user.Some? && user.value.firstName != "" && user.value.lastName != "" ==>
      r == [UpperChar(user.value.firstName[0]), UpperChar(user.value.lastName[0])]
    ensures user.Some? && user.value.firstName != "" && user.value.lastName == "" ==>
      |r| == (if |user.value.firstName| < 2 then 1 else 2) &&
      forall i :: 0 <= i < |r| ==> r[i] == UpperChar(user.value.firstName[i])
    ensures user.Some? && user.value.firstName == "" && user.value.username != "" ==>
      |r| == (if |user.value.username| < 2 then 1 else 2) &&
      forall i :: 0 <= i < |r| ==> r[i] == UpperChar(user.value.username[i])
    ensures user.None? || (user.value.firstName == "" && user.value.username == "") ==> r == "U"
  {
    if user.Some? && user.value.firstName != "" && user.value.lastName != "" then
      CaseFolding([user.value.firstName[0], user.value.lastName[0]]);
      Upper([user.value.firstName[0], user.value.lastName[0]])
    else if user.Some? && user.value.firstName != "" then
      CaseFolding(FirstTwo(user.value.firstName));
      Upper(FirstTwo(user.value.firstName))
    else if user.Some? && user.value.username != "" then
      CaseFolding(FirstTwo(user.value.username));
      Upper(FirstTwo(user.value.username))
    else "U"
  }

  /** `getUserDisplayName()`: `first last`, else the first name, else the
      user name, else `Usuario`. */
  function DisplayName(user: Option<User>): (r: string)
    ensures r != ""
    ensures user.Some? && user.value.firstName != "" ==> user.value.firstName <= r
    ensures user.Some? && user.value.firstName != "" && user.value.lastName != "" ==>
      r == user.value.firstName + " " + user.value.lastName
    ensures user.Some? && user.value.firstName != "" && user.value.lastName == "" ==>
      r == user.value.firstName
    ensures user.Some? && user.value.firstName == "" && user.value.username != "" ==>
      r == user.value.username
    ensures user.None? || (user.value.firstName == "" && user.value.username == "") ==> r == "Usuario"
  {
    if user.Some? && user.value.firstName != "" && user.value.lastName != "" then
      user.value.firstName + " " + user.value.lastName
    else if user.Some? && user.value.firstName != "" then
      user.value.firstName
    else if user.Some? && user.value.username != "" then
      user.value.username
    else "Usuario"
  }

  /** The avatar and the greeting agree: the avatar starts with the
      greeting's first letter, upper-cased, and shows the initial of the
      last name when the greeting shows both names. */
  lemma AvatarMatchesGreeting(user: Option<User>)
    ensures Initials(user)[0] == UpperChar(DisplayName(user)[0])
    ensures user.Some? && user.value.firstName != "" && user.value.lastName != "" ==>
      Initials(user)[1] == UpperChar(DisplayName(user)[|user.value.firstName| + 1])
  {
  }

  /** `getRoleDisplayName()` */
  function RoleLabel(user: Option<User>): (r: string)
    ensures r == "Bibliotecario" <==> user.Some? && user.value.role == Librarian
    ensures r == "Estudiante" <==> user.Some? && user.value.role == Student
    ensures r == "Usuario" <==> user.None?
  {
    if user.None? then "Usuario"
    else match user.value.role
      case Librarian => "Bibliotecario"
      case Student => "Estudiante"
  }
}
