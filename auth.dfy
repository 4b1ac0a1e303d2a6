/**
 * Sign-in and registration. A handler reads the posted form (a field is
 * None when the form lacks it, which Flask answers with 400), checks it in
 * a fixed order and either rejects it with one message or acts. The users
 * table and the password hashing are parameters.
 */
module Auth {
  import opened Wrappers

  /** A row of `users` without its hash: what the session holds. */
  datatype User = User(id: int, username: string, email: string, role: string)

  /** `User.is_admin`. */
  predicate IsAdmin(u: User) {
    u.role == "admin"
  }

  /** A user with the stored hash, as `User.get_by_username` returns it. */
  datatype StoredUser = StoredUser(user: User, passwordHash: string)

  /** The two dashboards a signed-in user is sent to. */
  datatype Dashboard = AdminDashboard | AgentDashboard

  /** Where a user's role sends them. */
  function DashboardFor(u: User): (d: Dashboard)
    ensures d == AdminDashboard <==> IsAdmin(u)
  {
    if u.role == "admin" then AdminDashboard else AgentDashboard
  }

  // ---------------------------------------------------------------------
  // login
  // ---------------------------------------------------------------------

  datatype LoginOutcome =
    | LoginBadRequest
    | LoginMissingFields
    | LoginInvalid
    | LoggedIn(user: User, next: Dashboard)

  /**
   * `login` on POST. An empty username or password is refused before the
   * users table is read; otherwise the user must exist and the stored hash
   * must accept the password, and the user is sent to their dashboard.
   */
  function Login(username: Option<string>, password: Option<string>,
                 lookup: string -> Option<StoredUser>, checkHash: (string, string) -> bool): (r: LoginOutcome)
    ensures r == LoginBadRequest <==> username.None? || password.None?
    ensures r == LoginMissingFields <==>
      username.Some? && password.Some? && (username.value == [] || password.value == [])
    ensures r.LoggedIn? <==>
      && username.Some? && password.Some? && username.value != [] && password.value != []
      && lookup(username.value).Some?
      && checkHash(lookup(username.value).value.passwordHash, password.value)
    ensures r.LoggedIn? ==> r.user == lookup(username.value).value.user && r.next == DashboardFor(r.user)
  {
    if username.None? || password.None? then LoginBadRequest
    else if username.value == [] || password.value == [] then LoginMissingFields
    else
      var found := lookup(username.value);
      if found.Some? && checkHash(found.value.passwordHash, password.value) then
        LoggedIn(found.value.user, DashboardFor(found.value.user))
      else LoginInvalid
  }

  // ---------------------------------------------------------------------
  // register
  // ---------------------------------------------------------------------

  datatype RegisterForm = RegisterForm(
    username: Option<string>, email: Option<string>, password: Option<string>,
    confirmPassword: Option<string>, role: Option<string>)

  /** The four fields `register` indexes directly. */
  predicate Complete(f: RegisterForm) {
    f.username.Some? && f.email.Some? && f.password.Some? && f.confirmPassword.Some?
  }

  datatype RegisterError = MissingFields | PasswordMismatch | PasswordTooShort | UsernameTaken

  /** The row handed to `User.create_user`. */
  datatype NewUser = NewUser(username: string, email: string, passwordHash: string, role: string)

  datatype RegisterOutcome =
    | RegisterBadRequest
    | RegisterRejected(error: RegisterError)
    | Registered(created: NewUser)
    | RegisterFailed(attempted: NewUser)

  /**
   * The role a registration stores: the requested one (`agent` when the
   * form has none), except that `admin` is demoted to `agent` unless the
   * requester is a signed-in admin. `requester` is None when no one is
   * signed in.
   */
  function RoleToCreate(requested: Option<string>, requester: Option<User>): (role: string)
    ensures role == "admin" <==> requested == Some("admin") && requester.Some? && IsAdmin(requester.value)
    ensures requested.None? ==> role == "agent"
    ensures requested.Some? && requested.value != "admin" ==> role == requested.value
  {
    var role := requested.GetOr("agent");
    if role == "admin" && (requester.None? || !IsAdmin(requester.value)) then "agent" else role
  }

  /**
   * Every check a complete form fails, in the order `register` makes them;
   * `taken` says whether the username already has a row.
   */
  function Failures(username: string, email: string, password: string, confirm: string, taken: bool): seq<RegisterError> {
    (if username == [] || email == [] || password == [] || confirm == [] then [MissingFields] else [])
    + (if password != confirm then [PasswordMismatch] else [])
    + (if |password| < 6 then [PasswordTooShort] else [])
    + (if taken then [UsernameTaken] else [])
  }

  /**
   * `register` on POST: the first failing check is the one reported and
   * nothing is created; a form passing all four is handed, with its hashed
   * password and its role, to `create`, whose false result is the insert
   * raising. `len` counts code points, as Dafny's `|s|` does.
   */
  function Register(form: RegisterForm, requester: Option<User>, lookup: string -> Option<StoredUser>,
                    hash: string -> string, create: NewUser -> bool): (r: RegisterOutcome)
    ensures r == RegisterBadRequest <==> !Complete(form)
    ensures Complete(form) ==>
      var failures := Failures(form.username.value, form.email.value, form.password.value,
                               form.confirmPassword.value, lookup(form.username.value).Some?);
      && (r.RegisterRejected? <==> failures != [])
      && (r.RegisterRejected? ==> r.error == failures[0])
    ensures r.Registered? || r.RegisterFailed? ==>
      var u := if r.Registered? then r.created else r.attempted;
      && u == NewUser(form.username.value, form.email.value, hash(form.password.value),
                      RoleToCreate(form.role, requester))
      && (r.Registered? <==> create(u))
  {
    if !Complete(form) then RegisterBadRequest
    else
      var username := form.username.value;
      var email := form.email.value;
      var password := form.password.value;
      if username == [] || email == [] || password == [] || form.confirmPassword.value == [] then
        RegisterRejected(MissingFields)
      else if password != form.confirmPassword.value then RegisterRejected(PasswordMismatch)
      else if |password| < 6 then RegisterRejected(PasswordTooShort)
      else if lookup(username).Some? then RegisterRejected(UsernameTaken)
      else
        var u := NewUser(username, email, hash(password), RoleToCreate(form.role, requester));
        if create(u) then Registered(u) else RegisterFailed(u)
  }
}
