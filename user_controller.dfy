// UserController: registration (validation, role normalisation, refusing
// ADMIN, duplicate e-mails, storing a hashed password) and login (one
// lookup, one password check, a token for the stored user). The password
// encoder and the token service are parameters with no body of their own.
module UserController {
  import opened Wrappers
  import opened JavaStrings
  import opened Errors
  import opened Security
  import opened Users
  import opened UserDetailsService

  /** The registration body; None stands for a missing or null field. */
  datatype RegisterRequest = RegisterRequest(name: Option<string>, email: Option<string>, password: Option<string>,
                                             role: Option<string>)

  /** The login body as its setters leave it: every given field is trimmed. */
  datatype LoginRequest = LoginRequest(email: Option<string>, password: Option<string>)

  /** `LoginRequest` filled from the JSON body: `setEmail` and `setPassword` store the trimmed text. */
  function LoginRequestOf(email: Option<string>, password: Option<string>): LoginRequest
  {
    LoginRequest(if email.Some? then Some(Trim(email.value)) else None,
                 if password.Some? then Some(Trim(password.value)) else None)
  }

  /** The stored fields are trimmed, so filling a request from an already filled one changes nothing. */
  lemma LoginRequestOfTrims(email: Option<string>, password: Option<string>)
    ensures var r := LoginRequestOf(email, password);
            && (r.email.Some? <==> email.Some?) && (r.password.Some? <==> password.Some?)
            && (r.email.Some? ==> IsTrimmed(r.email.value))
            && (r.password.Some? ==> IsTrimmed(r.password.value))
            && LoginRequestOf(r.email, r.password) == r
  {
    if email.Some? {
      TrimIsSlice(email.value);
      TrimIdempotent(email.value);
    }
    if password.Some? {
      TrimIsSlice(password.value);
      TrimIdempotent(password.value);
    }
  }

  /** The response bodies; neither success body has a password field. */
  datatype Body =
    | Message(message: string)
    | ErrorBody(error: string)
    | Registered(message: string, id: Option<int>, name: string, email: string, role: string)
    | LoggedIn(message: string, token: string, userId: Option<int>, userEmail: string, userRole: string)

  datatype Response = Response(status: Status, body: Body)

  const DefaultRole: string := "CUSTOMER"
  const AdminRole: string := "ADMIN"

  const MissingFields := Response(BadRequest400, Message("Name, email, and password are required."))
  const AdminRefused := Response(Forbidden403, Message("Cannot register as ADMIN via this form."))
  const EmailTaken := Response(Conflict409, Message("Email already registered."))
  const RegistrationFailed := Response(InternalServerError500, Message("Error during registration. Please try again later."))
  const LoginMissingFields := Response(BadRequest400, ErrorBody("Email and password are required."))
  const InvalidCredentials := Response(Unauthorized401, ErrorBody("Invalid credentials."))
  const RegisteredText: string := "User registered successfully!"
  const LoginText: string := "Login successful"

  /** The role a registration asks for: trimmed and upper-cased, CUSTOMER when missing or blank. */
  function RequestedRole(role: Option<string>): string
  {
    if role.Some? && !IsBlank(role.value) then ToUpper(Trim(role.value)) else DefaultRole
  }

  /** The requested role is trimmed and upper case, so normalising a non-blank one again changes nothing. */
  lemma RequestedRoleMeaning(role: Option<string>)
    ensures IsTrimmed(RequestedRole(role)) && ToUpper(RequestedRole(role)) == RequestedRole(role)
    ensures !IsBlank(RequestedRole(role)) ==> RequestedRole(Some(RequestedRole(role))) == RequestedRole(role)
    ensures NullOrBlank(role) ==> RequestedRole(role) == DefaultRole
  {
    if !NullOrBlank(role) {
      TrimIsSlice(role.value);
      CaseKeepsTrimmed(Trim(role.value));
      ToUpperIdempotent(Trim(role.value));
      TrimOfTrimmed(RequestedRole(role));
    } else {
      assert TrimStart(DefaultRole) == DefaultRole;
      assert TrimEnd(DefaultRole) == DefaultRole;
    }
  }

  /** " admin " is refused like "ADMIN". */
  lemma PaddedAdminIsAdmin()
    ensures RequestedRole(Some(" admin ")) == AdminRole
  {
    var padded := " admin ";
    assert !IsBlank(padded) by { assert !IsWhitespace(padded[1]); }
    assert TrimStart(padded) == padded[1..] == "admin ";
    assert TrimEnd("admin ") == "admin";
    var upper := ToUpper("admin");
    assert |upper| == 5 && upper[0] == 'A' && upper[1] == 'D' && upper[2] == 'M' && upper[3] == 'I' && upper[4] == 'N';
    assert upper == AdminRole;
  }

  /** The user `registerUser` builds, with the password hash exactly as written: the raw, untrimmed password. */
  function NewUserAsWritten(req: RegisterRequest, email: string, role: string, encode: string -> string): User
    requires req.name.Some? && req.password.Some?
  {
    User(None, Trim(req.name.value), email, encode(req.password.value), Some(role))
  }

  /** The user a registration stores: the trimmed name, the given e-mail and role, and the hash of the password as login will see it. */
  function NewUser(req: RegisterRequest, email: string, role: string, encode: string -> string): User
    requires req.name.Some? && req.password.Some?
  {
    User(None, Trim(req.name.value), email, encode(Trim(req.password.value)), Some(role))
  }

  /** The checks of `registerUser` in order, with the refusal each one answers, or the user to store. */
  function RegisterCheck(req: RegisterRequest, users: map<string, User>, encode: string -> string): Result<User, Response>
  {
    if NullOrBlank(req.name) || NullOrBlank(req.email) || NullOrBlank(req.password) then Err(MissingFields)
    else
      var role := RequestedRole(req.role);
      if role == AdminRole then Err(AdminRefused)
      else
        var email := NormalizedEmail(req.email.value);
        if email in users then Err(EmailTaken)
        else Ok(NewUser(req, email, role, encode))
  }

  /**
   * 400 exactly for a missing field; then 403 exactly for a role that
   * normalises to ADMIN; then 409 exactly for a normalised e-mail already
   * stored; otherwise the new user carries the normalised e-mail, the
   * requested role and an encoder output as password.
   */
  lemma RegisterCheckMeaning(req: RegisterRequest, users: map<string, User>, encode: string -> string)
    ensures var blank := NullOrBlank(req.name) || NullOrBlank(req.email) || NullOrBlank(req.password);
            && (RegisterCheck(req, users, encode) == Err(MissingFields) <==> blank)
            && (RegisterCheck(req, users, encode) == Err(AdminRefused) <==> !blank && RequestedRole(req.role) == AdminRole)
            && (RegisterCheck(req, users, encode) == Err(EmailTaken) <==>
                  !blank && RequestedRole(req.role) != AdminRole && NormalizedEmail(req.email.value) in users)
    ensures RegisterCheck(req, users, encode).Ok? ==>
              var u := RegisterCheck(req, users, encode).value;
              && u.email == NormalizedEmail(req.email.value) && u.email !in users
              && u.role == Some(RequestedRole(req.role)) && u.role != Some(AdminRole)
              && u.password == encode(Trim(req.password.value)) && u.id.None?
  {
  }

  /** `registerUser`: the checks, then the new user is saved and described without its password. */
  method Register(users: UserRepository, req: RegisterRequest, encode: string -> string) returns (resp: Response)
    requires users.Valid()
    modifies users
    ensures users.Valid()
    ensures match RegisterCheck(req, old(users.byEmail), encode)
            case Err(refusal) =>
              && resp == refusal
              && users.byEmail == old(users.byEmail) && users.nextId == old(users.nextId)
            case Ok(u) =>
              && users.byEmail == old(users.byEmail)[u.email := u.(id := Some(old(users.nextId)))]
              && users.nextId == old(users.nextId) + 1
              && resp == Response(Created201, Registered(RegisteredText, Some(old(users.nextId)),
                                                         u.name, u.email, u.role.value))
  {
    if NullOrBlank(req.name) || NullOrBlank(req.email) || NullOrBlank(req.password) {
      return MissingFields;
    }
    var role := RequestedRole(req.role);
    if role == AdminRole {
      return AdminRefused;
    }
    var email := NormalizedEmail(req.email.value);
    if users.FindByEmail(email).Some? {
      return EmailTaken;
    }
    var saved := users.Save(NewUser(req, email, role, encode));
    if saved.Err? {
      return RegistrationFailed;
    }
    resp := Response(Created201, Registered(RegisteredText, saved.value.id, saved.value.name,
                                            saved.value.email, saved.value.role.value));
  }

  /** The details `loginUser` hands to the token service: stored e-mail and hash, and one authority. */
  function LoginDetails(u: User): UserDetails
    requires u.role.Some?
  {
    UserDetails(u.email, u.password, [RoleAuthority(ToUpper(u.role.value))])
  }

  /**
   * `loginUser`: 400 for a missing field, the same 401 for an unknown
   * e-mail and a wrong password, and otherwise 200 with a token for the
   * stored user. A stored user without a role makes `toUpperCase` throw.
   */
  function Login(req: LoginRequest, users: map<string, User>, matches: (string, string) -> bool,
                 generateToken: UserDetails -> string): Result<Response, Exception>
  {
    if NullOrBlank(req.email) || NullOrBlank(req.password) then Ok(LoginMissingFields)
    else
      var email := NormalizedEmail(req.email.value);
      if email !in users then Ok(InvalidCredentials)
      else
        var u := users[email];
        if !matches(req.password.value, u.password) then Ok(InvalidCredentials)
        else if u.role.None? then Err(Exception(NullPointer, "role"))
        else Ok(Response(Ok200, LoggedIn(LoginText, generateToken(LoginDetails(u)), u.id, u.email, u.role.value)))
  }

  /**
   * An unknown e-mail and a wrong password answer the same response; a
   * success carries a token for the stored user's e-mail and the single
   * authority "ROLE_" + the upper-cased role, which is what loading that
   * user for a later request grants.
   */
  lemma LoginMeaning(req: LoginRequest, users: map<string, User>, matches: (string, string) -> bool,
                     generateToken: UserDetails -> string)
    ensures NullOrBlank(req.email) || NullOrBlank(req.password) ==> Login(req, users, matches, generateToken) == Ok(LoginMissingFields)
    ensures !NullOrBlank(req.email) && !NullOrBlank(req.password) ==>
              var email := NormalizedEmail(req.email.value);
              (email !in users || !matches(req.password.value, users[email].password)) <==>
                Login(req, users, matches, generateToken) == Ok(InvalidCredentials)
    ensures Login(req, users, matches, generateToken).Ok? && Login(req, users, matches, generateToken).value.status == Ok200 ==>
              var u := users[NormalizedEmail(req.email.value)];
              && matches(req.password.value, u.password)
              && Login(req, users, matches, generateToken).value.body.token == generateToken(LoginDetails(u))
              && LoginDetails(u).username == u.email
              && (!NullOrBlank(u.role) ==> LoginDetails(u).authorities == Authorities(u.role))
  {
  }

  /** An encoder whose `matches` accepts exactly the raw text that was encoded. */
  ghost predicate SoundEncoder(encode: string -> string, matches: (string, string) -> bool)
  {
    forall raw, typed :: matches(typed, encode(raw)) <==> typed == raw
  }

  /** What a successful registration leaves in the table. */
  function AfterRegister(users: map<string, User>, u: User, id: int): map<string, User>
  {
    users[u.email := u.(id := Some(id))]
  }

  /**
   * As written, registration hashes the raw password while login trims it:
   * with a sound encoder, a user who registered a password with
   * surrounding spaces is refused when typing that same password.
   */
  lemma AsWrittenLocksOutPaddedPassword(req: RegisterRequest, users: map<string, User>, id: int, encode: string -> string,
                                        matches: (string, string) -> bool, generateToken: UserDetails -> string)
    requires SoundEncoder(encode, matches)
    requires RegisterCheck(req, users, encode).Ok?
    requires Trim(req.password.value) != req.password.value
    requires !IsBlank(Trim(req.email.value)) && !IsBlank(Trim(req.password.value))
    ensures var u := NewUserAsWritten(req, NormalizedEmail(req.email.value), RequestedRole(req.role), encode);
            Login(LoginRequestOf(req.email, req.password), AfterRegister(users, u, id), matches, generateToken) == Ok(InvalidCredentials)
  {
    var u := NewUserAsWritten(req, NormalizedEmail(req.email.value), RequestedRole(req.role), encode);
    var login := LoginRequestOf(req.email, req.password);
    TrimIdempotent(req.email.value);
    assert NormalizedEmail(login.email.value) == u.email;
    assert !matches(login.password.value, u.password);
  }

  /** " pw" is such a password: it passes registration's blank check and trims to something else. */
  lemma PaddedPasswordExample()
    ensures Trim(" pw") == "pw" != " pw"
    ensures !IsBlank(" pw") && !IsBlank(Trim(" pw"))
  {
    assert TrimStart(" pw") == "pw";
    assert TrimEnd("pw") == "pw";
    assert !IsWhitespace(" pw"[1]);
    assert !IsWhitespace("pw"[0]);
  }

  /**
   * Registering and then logging in with the same e-mail and password
   * succeeds (for a sound encoder), with a token for the new user and its
   * requested role.
   */
  lemma RegisterThenLogin(req: RegisterRequest, users: map<string, User>, id: int, encode: string -> string,
                          matches: (string, string) -> bool, generateToken: UserDetails -> string)
    requires SoundEncoder(encode, matches)
    requires RegisterCheck(req, users, encode).Ok?
    requires !IsBlank(Trim(req.email.value)) && !IsBlank(Trim(req.password.value))
    ensures var u := RegisterCheck(req, users, encode).value;
            var stored := AfterRegister(users, u, id);
            Login(LoginRequestOf(req.email, req.password), stored, matches, generateToken) ==
              Ok(Response(Ok200, LoggedIn(LoginText, generateToken(LoginDetails(stored[u.email])), Some(id),
                                          u.email, RequestedRole(req.role))))
  {
    var u := RegisterCheck(req, users, encode).value;
    RegisteredUser(req, users, encode);
    var stored := AfterRegister(users, u, id);
    var login := LoginRequestOf(req.email, req.password);
    assert login.email == Some(Trim(req.email.value)) && login.password == Some(Trim(req.password.value));
    TrimIdempotent(req.email.value);
    assert NormalizedEmail(login.email.value) == u.email;
    var saved := u.(id := Some(id));
    assert stored[u.email] == saved;
    assert matches(login.password.value, saved.password);
    LoginOfStored(login, stored, matches, generateToken, saved);
  }

  /** A registration that passes its checks stores the user built from the normalised request. */
  lemma RegisteredUser(req: RegisterRequest, users: map<string, User>, encode: string -> string)
    requires RegisterCheck(req, users, encode).Ok?
    ensures !NullOrBlank(req.name) && !NullOrBlank(req.email) && !NullOrBlank(req.password)
    ensures RegisterCheck(req, users, encode).value == NewUser(req, NormalizedEmail(req.email.value), RequestedRole(req.role), encode)
  {
  }

  /** Login of a stored user whose password matches succeeds with a token for that user. */
  lemma LoginOfStored(req: LoginRequest, users: map<string, User>, matches: (string, string) -> bool,
                      generateToken: UserDetails -> string, u: User)
    requires !NullOrBlank(req.email) && !NullOrBlank(req.password)
    requires NormalizedEmail(req.email.value) in users && users[NormalizedEmail(req.email.value)] == u
    requires matches(req.password.value, u.password) && u.role.Some?
    ensures Login(req, users, matches, generateToken) ==
              Ok(Response(Ok200, LoggedIn(LoginText, generateToken(LoginDetails(u)), u.id, u.email, u.role.value)))
  {
  }
}
