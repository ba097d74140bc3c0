/** The librarian's user administration (components/UserManagement.tsx):
    the creation form with its ordered checks, creation, deletion behind a
    confirmation, reloading, and the name cell of the users table. */
module UserManagement {
  import opened Common
  import opened Text
  import opened Domain
  import Api

  const CredentialsRequired := "Usuario y email son requeridos"
  const PasswordRequired := "La contraseña es requerida"
  const PasswordTooShort := "La contraseña debe tener al menos 6 caracteres"

  const LoadFallback := "No se pudieron cargar los usuarios"
  const CreateFallback := "Error al crear usuario"
  const DeleteFallback := "Error al eliminar usuario"

  /** Shortest password accepted, counted before trimming. */
  const MinPasswordLength := 6

  /** The checks of `handleSubmit`, in order: username and email, password
      present, password length. */
  function ValidateUser(d: UserDraft): (r: Option<string>)
    ensures r == None <==>
      !IsBlank(d.username) && !IsBlank(d.email) && !IsBlank(d.password) && |d.password| >= MinPasswordLength
    ensures r == Some(CredentialsRequired) <==> IsBlank(d.username) || IsBlank(d.email)
    ensures r == Some(PasswordRequired) <==> !IsBlank(d.username) && !IsBlank(d.email) && IsBlank(d.password)
    ensures r == Some(PasswordTooShort) <==>
      !IsBlank(d.username) && !IsBlank(d.email) && !IsBlank(d.password) && |d.password| < MinPasswordLength
  {
    if IsBlank(d.username) || IsBlank(d.email) then Some(CredentialsRequired)
    else if IsBlank(d.password) then Some(PasswordRequired)
    else if |d.password| < MinPasswordLength then Some(PasswordTooShort)
    else None
  }

  /** The length check counts white space: six spaces are reported as a
      missing password, not as a short one, while a short password padded
      with spaces to six characters passes. */
  lemma PasswordChecksOrder(d: UserDraft)
    requires !IsBlank(d.username) && !IsBlank(d.email)
    ensures d.password == "      " ==> ValidateUser(d) == Some(PasswordRequired)
    ensures d.password == "abc   " ==> ValidateUser(d) == None
  {
    BlankIffAllSpace(d.password);
    if d.password == "abc   " {
      assert !IsSpace(d.password[0]);
    }
  }

  /** The form as it starts and as a successful creation leaves it. */
  const EmptyUserDraft: UserDraft := UserDraft("", "", "", "", "", "student")

  /** The names of the form's inputs. */
  datatype UserInput = UsernameInput | EmailInput | PasswordInput | FirstNameInput | LastNameInput | RoleInput

  /** `handleInputChange`: the named field takes the raw value. */
  function ChangeUserDraft(d: UserDraft, name: UserInput, value: string): (r: UserDraft)
    ensures name == UsernameInput ==> r == d.(username := value)
    ensures name == EmailInput ==> r == d.(email := value)
    ensures name == PasswordInput ==> r == d.(password := value)
    ensures name == FirstNameInput ==> r == d.(firstName := value)
    ensures name == LastNameInput ==> r == d.(lastName := value)
    ensures name == RoleInput ==> r == d.(role := value)
  {
    match name
    case UsernameInput => d.(username := value)
    case EmailInput => d.(email := value)
    case PasswordInput => d.(password := value)
    case FirstNameInput => d.(firstName := value)
    case LastNameInput => d.(lastName := value)
    case RoleInput => d.(role := value)
  }

  // ---------------------------------------------------------------- name cell

  /** The name cell: the trimmed `first last` when either part is non-empty,
      `-` otherwise. */
  function FullNameCell(first: string, last: string): string
  {
    if first != "" || last != "" then Trim(first + " " + last) else "-"
  }

  /** Text with no white space at either end. */
  predicate Tidy(s: string)
  {
    s != [] && !IsSpace(s[0]) && !IsSpace(s[|s| - 1])
  }

  /** For tidy names the cell shows both names with one space, or the one
      name given, or `-` when there is none. */
  lemma FullNameCellShapes(first: string, last: string)
    ensures Tidy(first) && Tidy(last) ==> FullNameCell(first, last) == first + " " + last
    ensures Tidy(first) && last == "" ==> FullNameCell(first, last) == first
    ensures first == "" && Tidy(last) ==> FullNameCell(first, last) == last
    ensures first == "" && last == "" ==> FullNameCell(first, last) == "-"
  {
    var s := first + " " + last;
    if Tidy(first) && Tidy(last) {
      assert s[0] == first[0];
      assert TrimStart(s) == s;
      assert s[|s| - 1] == last[|last| - 1];
      assert TrimEnd(s) == s;
    }
    if Tidy(first) && last == "" {
      assert s[0] == first[0];
      assert TrimStart(s) == s;
      assert s[..|s| - 1] == first;
      assert TrimEnd(first) == first;
    }
    if first == "" && Tidy(last) {
      assert s[1..] == last;
      assert TrimStart(last) == last;
      assert TrimEnd(last) == last;
    }
  }

  // ---------------------------------------------------------------- the view

  class UserManagementView {
    var users: seq<User>
    var loading: bool
    var error: string
    var showCreateForm: bool
    var formData: UserDraft

    constructor ()
      ensures users == [] && !loading && error == "" && !showCreateForm && formData == EmptyUserDraft
    {
      users := [];
      loading := false;
      error := "";
      showCreateForm := false;
      formData := EmptyUserDraft;
    }

    /** `loadUsers` once `getUsers()` has produced `outcome`. */
    method LoadUsers(outcome: Result<seq<User>, Thrown>) returns (issued: Api.Operation)
      modifies this`users, this`loading, this`error
      ensures issued == Api.GetUsers(None) && !loading
      ensures users == Reloaded(old(users), outcome)
      ensures error == LoadError(outcome, LoadFallback)
    {
      issued := Api.GetUsers(None);
      loading := true;
      error := "";
      if outcome.Ok? {
        users := outcome.value;
      } else {
        error := MessageOr(outcome.error, LoadFallback);
      }
      loading := false;
    }

    /** `handleSubmit`, given what `createUser` and the reload that follows
        it produce; `issued` lists the remote calls made, in order. */
    method HandleSubmit(created: Result<User, Thrown>, reload: Result<seq<User>, Thrown>)
      returns (issued: seq<Api.Operation>)
      modifies this`users, this`loading, this`error, this`showCreateForm, this`formData
      ensures ValidateUser(old(formData)).Some? ==>
        issued == [] && error == ValidateUser(old(formData)).value &&
        users == old(users) && loading == old(loading) &&
        showCreateForm == old(showCreateForm) && formData == old(formData)
      ensures ValidateUser(old(formData)).None? && created.Err? ==>
        issued == [Api.CreateUser(old(formData))] && error == MessageOr(created.error, CreateFallback) &&
        users == old(users) && !loading &&
        showCreateForm == old(showCreateForm) && formData == old(formData)
      ensures ValidateUser(old(formData)).None? && created.Ok? ==>
        issued == [Api.CreateUser(old(formData)), Api.GetUsers(None)] &&
        users == Reloaded(old(users), reload) && error == LoadError(reload, LoadFallback) && !loading &&
        !showCreateForm && formData == EmptyUserDraft
    {
      error := "";
      if IsBlank(formData.username) || IsBlank(formData.email) {
        error := CredentialsRequired;
        return [];
      }
      if IsBlank(formData.password) {
        error := PasswordRequired;
        return [];
      }
      if |formData.password| < MinPasswordLength {
        error := PasswordTooShort;
        return [];
      }
      loading := true;
      issued := [Api.CreateUser(formData)];
      if created.Err? {
        error := MessageOr(created.error, CreateFallback);
        loading := false;
        return;
      }
      formData := EmptyUserDraft;
      showCreateForm := false;
      var again := LoadUsers(reload);
      issued := issued + [again];
      loading := false;
    }

    /** `handleInputChange` */
    method HandleInputChange(name: UserInput, value: string)
      modifies this`formData
      ensures formData == ChangeUserDraft(old(formData), name, value)
    {
      formData := ChangeUserDraft(formData, name, value);
    }

    /** `handleDelete`, given the answer to the confirmation and what
        `deleteUser` and the reload produce. */
    method HandleDelete(userId: int, confirmed: bool, deleted: Result<(), Thrown>, reload: Result<seq<User>, Thrown>)
      returns (issued: seq<Api.Operation>)
      modifies this`users, this`loading, this`error
      ensures !confirmed ==>
        issued == [] && users == old(users) && loading == old(loading) && error == old(error)
      ensures confirmed && deleted.Err? ==>
        issued == [Api.DeleteUser(userId)] && users == old(users) && !loading &&
        error == MessageOr(deleted.error, DeleteFallback)
      ensures confirmed && deleted.Ok? ==>
        issued == [Api.DeleteUser(userId), Api.GetUsers(None)] && !loading &&
        users == Reloaded(old(users), reload) && error == LoadError(reload, LoadFallback)
    {
      if !confirmed {
        return [];
      }
      loading := true;
      issued := [Api.DeleteUser(userId)];
      if deleted.Err? {
        error := MessageOr(deleted.error, DeleteFallback);
        loading := false;
        return;
      }
      var again := LoadUsers(reload);
      issued := issued + [again];
      loading := false;
    }
  }
}
