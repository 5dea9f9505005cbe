/**
 * AuthenticaticationController: registration, the three ways to sign in
 * (name and password, Google, a one-time password mailed to the account),
 * logout, and the password-reset and OTP mails. The sign-in flows look the
 * account up, have the JWT service write an access and a refresh token, and
 * let the token repository reuse or file a row for each; their answers are
 * stated over the tables as they stood before the request.
 */
module AuthController {
  import opened Common
  import opened Http
  import opened Models
  import opened TokenRepository
  import opened UserRepository

  // ---------------------------------------------------------------------------
  // Texts shared by several actions.

  const NameRequired: string := "Name is required"
  const NameTooLong: string := "Name must be at most 50 characters long."
  const EmailRequired: string := "Email is required."
  const EmailTooLong: string := "Email must be at most 100 characters long."
  const BadEmail: string := "Invalid email format"
  const BadEmailHint: string := "Invalid email format" + "..kindly try with proper email"
  const PasswordRequired: string := "Password is required."
  const RoleMissing: string := "Kindly specify your role" + "..can't be null"
  const InvalidData: string := "Invalid data..try again"
  const LoginWelcome: string := "! Your login was successful."

  /** An e-mail the actions accept: present, well formed, at most 100
      characters. */
  predicate EmailAccepted(email: Option<string>)
  {
    !IsNullOrEmpty(email) && IsValidEmail(email.value) && |email.value| <= 100
  }

  /** The e-mail tests in the order the actions make them: present, well
      formed, at most 100 characters. `invalid` is the action's text for a
      malformed address. */
  function EmailChecks(email: Option<string>, invalid: string): seq<Check>
  {
    [Check(!IsNullOrEmpty(email), EmailRequired),
     Check(IsValidEmail(OrEmpty(email)), invalid),
     Check(|OrEmpty(email)| <= 100, EmailTooLong)]
  }

  function EmailGuard(email: Option<string>, invalid: string): (m: Option<string>)
    ensures m.None? <==> EmailAccepted(email)
    ensures IsNullOrEmpty(email) ==> m == Some(EmailRequired)
    ensures !IsNullOrEmpty(email) && !IsValidEmail(email.value) ==> m == Some(invalid)
  {
    if IsNullOrEmpty(email) then Some(EmailRequired)
    else if !IsValidEmail(email.value) then Some(invalid)
    else if |email.value| > 100 then Some(EmailTooLong)
    else None
  }

  /** The e-mail guard refuses with the message of its first failing test. */
  lemma EmailGuardOrder(email: Option<string>, invalid: string)
    ensures EmailGuard(email, invalid) == FirstFailed(EmailChecks(email, invalid))
  {
    var c := EmailChecks(email, invalid);
    if IsNullOrEmpty(email) { FirstFailedAt(c, 0); }
    else if !IsValidEmail(email.value) { FirstFailedAt(c, 1); }
    else if |email.value| > 100 { FirstFailedAt(c, 2); }
  }

  /** The four texts a token procedure raises for a missing column. */
  const AccessTokenMissing: string := "AccessToken cannot be " + "NULL or empty."
  const AccessPeriodMissing: string := "Access token time period " + "cannot be NULL or empty."
  const RefreshTokenMissing: string := "RefreshToken cannot be " + "NULL or empty."
  const RefreshPeriodMissing: string := "Refresh token time period " + "cannot be NULL or empty."

  predicate TokenDataMissing(message: string)
  {
    || Contains(message, AccessTokenMissing)
    || Contains(message, AccessPeriodMissing)
    || Contains(message, RefreshTokenMissing)
    || Contains(message, RefreshPeriodMissing)
  }

  // ---------------------------------------------------------------------------
  // RegisterUser.

  /** RegisterUser. */
  datatype Registration = Registration(
    userName: Option<string>,
    email: Option<string>,
    userPassword: Option<string>,
    userRole: Option<string>)

  /** A name of 1 to 50 characters, an acceptable e-mail, a password of 6 to
      255 characters and one of the two roles. */
  predicate RegistrationAccepted(u: Registration)
  {
    && 1 <= Length(u.userName) <= 50
    && EmailAccepted(u.email)
    && 6 <= Length(u.userPassword) <= 255
    && (u.userRole == Some(AdminRole) || u.userRole == Some(UserRole))
  }

  const PasswordLength: string := "Password must be at least 6 characters long " + "and at most 255 characters long."

  /** RegisterUser's tests in the order the action makes them: name, e-mail,
      password, role. */
  function RegistrationChecks(u: Registration): seq<Check>
  {
    NameChecks(u) + EmailChecks(u.email, BadEmailHint) + PasswordRoleChecks(u)
  }

  function NameChecks(u: Registration): seq<Check>
  {
    [Check(!IsNullOrEmpty(u.userName), NameRequired), Check(Length(u.userName) <= 50, NameTooLong)]
  }

  function PasswordRoleChecks(u: Registration): seq<Check>
  {
    [Check(!IsNullOrEmpty(u.userPassword), PasswordRequired),
     Check(6 <= Length(u.userPassword) <= 255, PasswordLength),
     Check(!IsNullOrEmpty(u.userRole), "Your role is not specified..try again"),
     Check(u.userRole == Some(AdminRole) || u.userRole == Some(UserRole), "Your role is invalid..try again")]
  }

  function RegistrationGuard(u: Registration): (m: Option<string>)
    ensures m.None? <==> RegistrationAccepted(u)
    ensures IsNullOrEmpty(u.userName) ==> m == Some(NameRequired)
  {
    if IsNullOrEmpty(u.userName) then Some(NameRequired)
    else if Length(u.userName) > 50 then Some(NameTooLong)
    else if EmailGuard(u.email, BadEmailHint).Some? then EmailGuard(u.email, BadEmailHint)
    else if IsNullOrEmpty(u.userPassword) then Some(PasswordRequired)
    else if Length(u.userPassword) < 6 || Length(u.userPassword) > 255 then
      Some(PasswordLength)
    else if IsNullOrEmpty(u.userRole) then Some("Your role is not specified..try again")
    else if u.userRole.value != AdminRole && u.userRole.value != UserRole then Some("Your role is invalid..try again")
    else None
  }

  /** RegisterUser refuses with the message of the first test, in the
      order above, that the request fails. */
  lemma RegistrationGuardOrder(u: Registration)
    ensures RegistrationGuard(u) == FirstFailed(RegistrationChecks(u))
  {
    FirstFailedAppend(NameChecks(u) + EmailChecks(u.email, BadEmailHint), PasswordRoleChecks(u));
    FirstFailedAppend(NameChecks(u), EmailChecks(u.email, BadEmailHint));
    EmailGuardOrder(u.email, BadEmailHint);
    NameChecksOrder(u);
    PasswordRoleChecksOrder(u);
  }

  lemma NameChecksOrder(u: Registration)
    ensures FirstFailed(NameChecks(u)) ==
              if IsNullOrEmpty(u.userName) then Some(NameRequired)
              else if Length(u.userName) > 50 then Some(NameTooLong)
              else None
  {
    if IsNullOrEmpty(u.userName) { FirstFailedAt(NameChecks(u), 0); }
    else if Length(u.userName) > 50 { FirstFailedAt(NameChecks(u), 1); }
  }

  lemma PasswordRoleChecksOrder(u: Registration)
    ensures FirstFailed(PasswordRoleChecks(u)) ==
              if IsNullOrEmpty(u.userPassword) then Some(PasswordRequired)
              else if Length(u.userPassword) < 6 || Length(u.userPassword) > 255 then Some(PasswordLength)
              else if IsNullOrEmpty(u.userRole) then Some("Your role is not specified..try again")
              else if u.userRole.value != AdminRole && u.userRole.value != UserRole then Some("Your role is invalid..try again")
              else None
  {
    var c := PasswordRoleChecks(u);
    if IsNullOrEmpty(u.userPassword) { FirstFailedAt(c, 0); }
    else if Length(u.userPassword) < 6 || Length(u.userPassword) > 255 { FirstFailedAt(c, 1); }
    else if IsNullOrEmpty(u.userRole) { FirstFailedAt(c, 2); }
    else if u.userRole.value != AdminRole && u.userRole.value != UserRole { FirstFailedAt(c, 3); }
  }

  const AdminLimit: string :=
    "More than 3 " + "administrators " + "are not allowed. " + "Please contact " + "the product " + "owner for " + "assistance."

  /** A 409 whose body still carries the code 400. */
  function Conflict(message: string): (r: Reply<string>)
    ensures r.status == 409 && r.body == Api(400, Some(message), None)
  {
    Reply(409, Api(400, Some(message), None))
  }

  function RegistrationFailure(f: Failure): (r: Reply<string>)
    ensures r.status in {400, 409, 500} && r.body.Api? && r.body.data == None
    ensures r.status == 409 ==> r.body.code == 400
    ensures !IsRaised(f) ==> r == ServerFault()
  {
    if !IsRaised(f) then ServerFault()
    else if Contains(f.message, "Name cannot be null.") then BadRequest(NameRequired)
    else if Contains(f.message, "Email cannot be null.") then BadRequest("Email cannot be null")
    else if Contains(f.message, "Name is already in use.") then Conflict("Name is already taken")
    else if Contains(f.message, "Email is already in use.") then Conflict("Email is already taken")
    else if Contains(f.message, AdminLimit) then Conflict(AdminLimit)
    else if Contains(f.message, "Role cannot be null.") then BadRequest("Please login with proper credentials")
    else ServerFault()
  }

  /** The registration the repository receives: the request with its
      password replaced by the BCrypt hash. */
  function Hashed(u: Registration, hash: string -> string): Registration
    requires !IsNullOrEmpty(u.userPassword)
  {
    u.(userPassword := Some(hash(u.userPassword.value)))
  }

  /**
   * RegisterUser(registerUser). `hash` is BCrypt's HashPassword and `insert`
   * is InsertUserAsync, which answers the new user's id or throws.
   */
  function RegisterUser(u: Registration, hash: string -> string, insert: Registration -> Outcome<Int32>): (r: Reply<string>)
    ensures !RegistrationAccepted(u) ==> r.status == 400 && r.body.Api? && r.body.data == None
    // a refused request is told about the first test it fails, in the order of RegistrationChecks
    ensures FirstFailed(RegistrationChecks(u)).Some? <==> !RegistrationAccepted(u)
    ensures FirstFailed(RegistrationChecks(u)).Some? ==> r == BadRequest(FirstFailed(RegistrationChecks(u)).value)
    ensures IsNullOrEmpty(u.userName) ==> r == BadRequest(NameRequired)
    // only the hashed password reaches the repository
    ensures RegistrationAccepted(u) ==>
              var stored := insert(Hashed(u, hash));
              && (stored.Ok? ==>
                    r == if stored.value != 0
                         then Plain(201, "Welcome, " + u.userName.value + "! Your registration was successful.")
                         else ServerFault())
              && (stored.Threw? ==> r == RegistrationFailure(stored.failure))
  {
    RegistrationGuardOrder(u);
    if RegistrationGuard(u).Some? then BadRequest(RegistrationGuard(u).value)
    else match insert(Hashed(u, hash))
      case Ok(userId) =>
        if userId == 0 then ServerFault()
        else Plain(201, "Welcome, " + u.userName.value + "! Your registration was successful.")
      case Threw(f) => RegistrationFailure(f)
  }

  /** A fourth administrator is refused with a 409 that names the limit. */
  lemma AdminLimitConflict()
    ensures RegistrationFailure(SqlFailure(50000, AdminLimit)) == Conflict(AdminLimit)
  {
    AdminLimitLacksN();
    AdminLimitLacksE();
    CharNotContained(AdminLimit, "Name cannot be null.", 0);
    CharNotContained(AdminLimit, "Email cannot be null.", 0);
    CharNotContained(AdminLimit, "Name is already in use.", 0);
    CharNotContained(AdminLimit, "Email is already in use.", 0);
    ContainsItself(AdminLimit);
  }

  lemma AdminLimitLacksN()
    ensures 'N' !in AdminLimit
  {
    assert 'N' !in "More than 3 ";
    assert 'N' !in "administrators ";
    assert 'N' !in "are not allowed. ";
    assert 'N' !in "Please contact ";
    assert 'N' !in "the product ";
    assert 'N' !in "owner for ";
    assert 'N' !in "assistance.";
  }

  lemma AdminLimitLacksE()
    ensures 'E' !in AdminLimit
  {
    assert 'E' !in "More than 3 ";
    assert 'E' !in "administrators ";
    assert 'E' !in "are not allowed. ";
    assert 'E' !in "Please contact ";
    assert 'E' !in "the product ";
    assert 'E' !in "owner for ";
    assert 'E' !in "assistance.";
  }

  // ---------------------------------------------------------------------------
  // Issuing the token pair, shared by the three sign-in flows.

  /** The JWT service's two tokens (GetToken returns a string or throws), then
      the access row and the refresh row from the token repository. */
  function SignIn(user: UserDetails, accessToken: Outcome<string>, refreshToken: Outcome<string>,
                  outage: Option<Failure>, access: map<string, TokenRecord>, refresh: map<string, TokenRecord>,
                  now: int): (r: Outcome<Option<TokenDetails>>)
    ensures r.Ok? && r.value.Some? ==>
              && accessToken.Ok? && refreshToken.Ok? && outage.None?
              && Issued(outage, access, Access, user, Some(accessToken.value), now) == Ok(Some(r.value.value.access))
              && Issued(outage, refresh, Refresh, user, Some(refreshToken.value), now) == Ok(Some(r.value.value.refresh))
  {
    if accessToken.Threw? then Threw(accessToken.failure)
    else if refreshToken.Threw? then Threw(refreshToken.failure)
    else
      var a := Issued(outage, access, Access, user, Some(accessToken.value), now);
      if a.Threw? then Threw(a.failure)
      else
        var b := Issued(outage, refresh, Refresh, user, Some(refreshToken.value), now);
        if b.Threw? then Threw(b.failure)
        else if a.value.None? || b.value.None? then Ok(None)
        else Ok(Some(TokenDetails(a.value.value, b.value.value)))
  }

  /** A table after SignIn: filed by the repository once both tokens exist. */
  function SignedIn(kind: Kind, user: UserDetails, accessToken: Outcome<string>, refreshToken: Outcome<string>,
                    outage: Option<Failure>, table: map<string, TokenRecord>, now: int): map<string, TokenRecord>
  {
    if accessToken.Ok? && refreshToken.Ok? then
      Filed(outage, table, kind, user, Some(if kind == Access then accessToken.value else refreshToken.value), now)
    else table
  }

  /** An account with no rows gets a fresh pair: the tokens just written,
      valid for 120 and 125 minutes from now. */
  lemma SignInWithoutRows(user: UserDetails, accessToken: string, refreshToken: string,
                          access: map<string, TokenRecord>, refresh: map<string, TokenRecord>, now: int)
    requires user.email !in access && user.email !in refresh
    ensures SignIn(user, Ok(accessToken), Ok(refreshToken), None, access, refresh, now)
            == Ok(Some(TokenDetails(Stored(TokenInsert(user.email, accessToken, now + AccessLifetime), user),
                                    Stored(TokenInsert(user.email, refreshToken, now + RefreshLifetime), user))))
  {
    FirstIssueIsFresh(access, Access, user, accessToken, now);
    FirstIssueIsFresh(refresh, Refresh, user, refreshToken, now);
  }

  /** A pair handed out over tables filed by e-mail belongs to the account. */
  lemma SignInRowsBelongToUser(user: UserDetails, accessToken: Outcome<string>, refreshToken: Outcome<string>,
                               outage: Option<Failure>, access: map<string, TokenRecord>,
                               refresh: map<string, TokenRecord>, now: int)
    requires KeyedByEmail(access) && KeyedByEmail(refresh)
    ensures var r := SignIn(user, accessToken, refreshToken, outage, access, refresh, now);
            r.Ok? && r.value.Some? ==> r.value.value.access.email == user.email && r.value.value.refresh.email == user.email
  {
    if accessToken.Ok? && refreshToken.Ok? {
      IssuedRowBelongsToUser(outage, access, Access, user, Some(accessToken.value), now);
      IssuedRowBelongsToUser(outage, refresh, Refresh, user, Some(refreshToken.value), now);
    }
  }

  /** An unexpired access row is handed back as it is, token and all. */
  lemma SignInReusesLiveRow(user: UserDetails, accessToken: string, refreshToken: string,
                            access: map<string, TokenRecord>, refresh: map<string, TokenRecord>, now: int)
    requires user.email in access && access[user.email].expiry > now
    requires user.email in refresh && refresh[user.email].expiry > now
    ensures SignIn(user, Ok(accessToken), Ok(refreshToken), None, access, refresh, now)
            == Ok(Some(TokenDetails(access[user.email], refresh[user.email])))
  {
  }

  /** A row that has expired but is not yet swept blocks the pair. */
  lemma ExpiredRowBlocksSignIn(user: UserDetails, accessToken: string, refreshToken: string,
                               access: map<string, TokenRecord>, refresh: map<string, TokenRecord>, now: int)
    requires user.email in access && access[user.email].expiry <= now
    ensures SignIn(user, Ok(accessToken), Ok(refreshToken), None, access, refresh, now) == Ok(None)
  {
  }

  /** The four repository calls of a sign-in, against the token tables. */
  method IssueTokens(user: UserDetails, accessToken: Outcome<string>, refreshToken: Outcome<string>,
                     tokens: TokenStore, now: int)
    returns (r: Outcome<Option<TokenDetails>>)
    requires tokens.Valid()
    modifies tokens
    ensures tokens.Valid() && tokens.outage == old(tokens.outage)
    ensures r == SignIn(user, accessToken, refreshToken, old(tokens.outage), old(tokens.access), old(tokens.refresh), now)
    ensures tokens.access == SignedIn(Access, user, accessToken, refreshToken, old(tokens.outage), old(tokens.access), now)
    ensures tokens.refresh == SignedIn(Refresh, user, accessToken, refreshToken, old(tokens.outage), old(tokens.refresh), now)
  {
    if accessToken.Threw? {
      return Threw(accessToken.failure);
    }
    if refreshToken.Threw? {
      return Threw(refreshToken.failure);
    }
    var accessDetails := tokens.Generate(Access, user, Some(accessToken.value), now);
    if accessDetails.Threw? {
      return Threw(accessDetails.failure);
    }
    var refreshDetails := tokens.Generate(Refresh, user, Some(refreshToken.value), now);
    if refreshDetails.Threw? {
      return Threw(refreshDetails.failure);
    }
    if accessDetails.value.None? || refreshDetails.value.None? {
      return Ok(None);
    }
    r := Ok(Some(TokenDetails(accessDetails.value.value, refreshDetails.value.value)));
  }

  // ---------------------------------------------------------------------------
  // LoginUser.

  /** LoginUser: the name, the password and the role the client claims. */
  datatype Credentials = Credentials(userName: Option<string>, password: Option<string>, userOrAdmin: Option<string>)

  predicate LoginAccepted(c: Credentials)
  {
    1 <= Length(c.userName) <= 50 && !IsNullOrEmpty(c.password) && !IsNullOrEmpty(c.userOrAdmin)
  }

  function LoginGuard(c: Credentials): (m: Option<string>)
    ensures m.None? <==> LoginAccepted(c)
    ensures IsNullOrEmpty(c.userName) ==> m == Some(NameRequired)
  {
    if IsNullOrEmpty(c.userName) then Some(NameRequired)
    else if Length(c.userName) > 50 then Some(NameTooLong)
    else if IsNullOrEmpty(c.password) then Some(PasswordRequired)
    else if IsNullOrEmpty(c.userOrAdmin) then Some(RoleMissing)
    else None
  }

  /** The login tests in the order the action makes them. */
  function LoginChecks(c: Credentials): seq<Check>
  {
    [Check(!IsNullOrEmpty(c.userName), NameRequired),
     Check(Length(c.userName) <= 50, NameTooLong),
     Check(!IsNullOrEmpty(c.password), PasswordRequired),
     Check(!IsNullOrEmpty(c.userOrAdmin), RoleMissing)]
  }

  /** The login guard refuses with the message of its first failing test. */
  lemma LoginGuardOrder(c: Credentials)
    ensures LoginGuard(c) == FirstFailed(LoginChecks(c))
  {
    var k := LoginChecks(c);
    if IsNullOrEmpty(c.userName) { FirstFailedAt(k, 0); }
    else if Length(c.userName) > 50 { FirstFailedAt(k, 1); }
    else if IsNullOrEmpty(c.password) { FirstFailedAt(k, 2); }
    else if IsNullOrEmpty(c.userOrAdmin) { FirstFailedAt(k, 3); }
  }

  const NoSuchName: string := "User with the " + "provided name " + "does not exist."

  function LoginFailure(f: Failure, userOrAdmin: string): (r: Reply<TokenDetails>)
    ensures r.status in {400, 404, 500} && r.body.Api? && r.body.data == None
    ensures !IsRaised(f) ==> r == ServerFaultSpaced()
  {
    if !IsRaised(f) then ServerFaultSpaced()
    else if Contains(f.message, "UserName cannot be NULL or empty.") then BadRequest("Name cannot be null")
    else if Contains(f.message, NoSuchName) && userOrAdmin == UserRole then Plain(404, "User not exists...Kindly register")
    else if Contains(f.message, NoSuchName) && userOrAdmin == AdminRole then Plain(404, "Admin not exists...Kindly register")
    else if Contains(f.message, "Email cannot be NULL or empty.") then BadRequest("Email cannot be NULL")
    else if TokenDataMissing(f.message) then BadRequest(InvalidData)
    else ServerFault()
  }

  /** The account found is the one claimed: same role, same name, and the
      password verifies against its hash. */
  predicate PasswordAccepted(c: Credentials, found: Outcome<Option<UserDetails>>, verify: (string, string) -> bool)
  {
    && LoginAccepted(c) && found.Ok? && found.value.Some?
    && c.userOrAdmin.value == found.value.value.role
    && c.userName.value == found.value.value.userName
    && verify(c.password.value, found.value.value.passwordHash)
  }

  /**
   * LoginUser(user), given the lookup by name, BCrypt's Verify, the JWT
   * service's tokens and the token tables before the request.
   */
  function LoginReply(c: Credentials, found: Outcome<Option<UserDetails>>, verify: (string, string) -> bool,
                      accessToken: Outcome<string>, refreshToken: Outcome<string>,
                      outage: Option<Failure>, access: map<string, TokenRecord>, refresh: map<string, TokenRecord>,
                      now: int): (r: Reply<TokenDetails>)
    ensures !LoginAccepted(c) ==> r.status == 400 && r.body.Api? && r.body.data == None
    // a refused request is told about the first test it fails, in the order of LoginChecks
    ensures FirstFailed(LoginChecks(c)).Some? <==> !LoginAccepted(c)
    ensures FirstFailed(LoginChecks(c)).Some? ==> r == BadRequest(FirstFailed(LoginChecks(c)).value)
    ensures LoginAccepted(c) && found == Ok(None) ==> r == Plain(404, "User not exists")
    ensures LoginAccepted(c) && found.Threw? ==> r == LoginFailure(found.failure, c.userOrAdmin.value)
    // a wrong password, or a role or name that is not the account's, is a 400
    ensures LoginAccepted(c) && found.Ok? && found.value.Some? && !PasswordAccepted(c, found, verify) ==>
              r.status == 400 && r.body.Api? && r.body.data == None
    // an account whose role or name is not the one claimed is reported missing under the claimed role
    ensures LoginAccepted(c) && found.Ok? && found.value.Some? &&
            (c.userOrAdmin.value != found.value.value.role || c.userName.value != found.value.value.userName) ==>
              r == BadRequest(if c.userOrAdmin.value == AdminRole then "Admin not exists" else "User not exists")
    ensures LoginAccepted(c) && found.Ok? && found.value.Some? &&
            c.userOrAdmin.value == found.value.value.role && c.userName.value == found.value.value.userName &&
            !verify(c.password.value, found.value.value.passwordHash) ==>
              r == BadRequest("Wrong password... Kindly try again")
    ensures PasswordAccepted(c, found, verify) ==>
              var s := SignIn(found.value.value, accessToken, refreshToken, outage, access, refresh, now);
              && (s.Threw? ==> r == LoginFailure(s.failure, c.userOrAdmin.value))
              && (s == Ok(None) ==> r == ServerFault())
              && (s.Ok? && s.value.Some? ==>
                    r == WithData(200, "Welcome back, " + c.userName.value + LoginWelcome, s.value))
  {
    LoginGuardOrder(c);
    if LoginGuard(c).Some? then BadRequest(LoginGuard(c).value)
    else match found
      case Threw(f) => LoginFailure(f, c.userOrAdmin.value)
      case Ok(None) => Plain(404, "User not exists")
      case Ok(Some(u)) =>
        if c.userOrAdmin.value != u.role || c.userName.value != u.userName then
          BadRequest(if c.userOrAdmin.value == AdminRole then "Admin not exists" else "User not exists")
        else if !verify(c.password.value, u.passwordHash) then BadRequest("Wrong password... Kindly try again")
        else match SignIn(u, accessToken, refreshToken, outage, access, refresh, now)
          case Threw(f) => LoginFailure(f, c.userOrAdmin.value)
          case Ok(None) => ServerFault()
          case Ok(Some(details)) => WithData(200, "Welcome back, " + c.userName.value + LoginWelcome, Some(details))
  }

  /** A 200 needs the claimed account and its password, and carries that
      account's rows. */
  lemma LoginNeedsPassword(c: Credentials, found: Outcome<Option<UserDetails>>, verify: (string, string) -> bool,
                           accessToken: Outcome<string>, refreshToken: Outcome<string>,
                           outage: Option<Failure>, access: map<string, TokenRecord>, refresh: map<string, TokenRecord>,
                           now: int)
    requires KeyedByEmail(access) && KeyedByEmail(refresh)
    ensures var r := LoginReply(c, found, verify, accessToken, refreshToken, outage, access, refresh, now);
            r.status == 200 ==>
              && PasswordAccepted(c, found, verify)
              && r.body.Api? && r.body.data.Some?
              && r.body.data.value.access.email == found.value.value.email
              && r.body.data.value.refresh.email == found.value.value.email
  {
    if PasswordAccepted(c, found, verify) {
      SignInRowsBelongToUser(found.value.value, accessToken, refreshToken, outage, access, refresh, now);
    }
  }

  /** A claimed role other than "user" or "admin", for a name the procedure
      does not know, falls through to a 500. */
  lemma UnknownNameWithOtherRole()
    ensures LoginFailure(SqlFailure(50000, NoSuchName), "guest") == ServerFault()
  {
    NoSuchNameLacksL();
    assert "UserName cannot be NULL or empty."[21] == 'L';
    CharNotContained(NoSuchName, "UserName cannot be NULL or empty.", 21);
    assert "Email cannot be NULL or empty."[18] == 'L';
    CharNotContained(NoSuchName, "Email cannot be NULL or empty.", 18);
    assert AccessTokenMissing[24] == 'L';
    CharNotContained(NoSuchName, AccessTokenMissing, 24);
    assert AccessPeriodMissing[37] == 'L';
    CharNotContained(NoSuchName, AccessPeriodMissing, 37);
    assert RefreshTokenMissing[25] == 'L';
    CharNotContained(NoSuchName, RefreshTokenMissing, 25);
    assert RefreshPeriodMissing[38] == 'L';
    CharNotContained(NoSuchName, RefreshPeriodMissing, 38);
  }

  lemma NoSuchNameLacksL()
    ensures 'L' !in NoSuchName
  {
    assert 'L' !in "User with the ";
    assert 'L' !in "provided name ";
    assert 'L' !in "does not exist.";
  }

  /**
   * LoginUser against the user table and the token tables. `verify` is
   * BCrypt's Verify; the tokens are what the JWT service writes for the
   * account.
   */
  method LoginUser(c: Credentials, users: UserStore, tokens: TokenStore, verify: (string, string) -> bool,
                   accessToken: Outcome<string>, refreshToken: Outcome<string>, now: int)
    returns (r: Reply<TokenDetails>)
    requires tokens.Valid()
    modifies tokens
    ensures tokens.Valid() && tokens.outage == old(tokens.outage)
    ensures r == LoginReply(c, users.GetUserByName(OrEmpty(c.userName)), verify, accessToken, refreshToken,
                            old(tokens.outage), old(tokens.access), old(tokens.refresh), now)
    // the token tables are touched only once the password has been verified
    ensures !PasswordAccepted(c, users.GetUserByName(OrEmpty(c.userName)), verify) ==>
              tokens.access == old(tokens.access) && tokens.refresh == old(tokens.refresh)
    ensures PasswordAccepted(c, users.GetUserByName(OrEmpty(c.userName)), verify) ==>
              var u := users.GetUserByName(OrEmpty(c.userName)).value.value;
              && tokens.access == SignedIn(Access, u, accessToken, refreshToken, old(tokens.outage), old(tokens.access), now)
              && tokens.refresh == SignedIn(Refresh, u, accessToken, refreshToken, old(tokens.outage), old(tokens.refresh), now)
  {
    var guard := LoginGuard(c);
    if guard.Some? {
      return BadRequest(guard.value);
    }
    var userDetails := users.GetUserByName(c.userName.value);
    if userDetails.Threw? {
      return LoginFailure(userDetails.failure, c.userOrAdmin.value);
    }
    if userDetails.value.None? {
      return Plain(404, "User not exists");
    }
    var u := userDetails.value.value;
    if c.userOrAdmin.value != u.role || c.userName.value != u.userName {
      if c.userOrAdmin.value == AdminRole {
        return BadRequest("Admin not exists");
      }
      return BadRequest("User not exists");
    }
    if !verify(c.password.value, u.passwordHash) {
      return BadRequest("Wrong password... Kindly try again");
    }
    var details := IssueTokens(u, accessToken, refreshToken, tokens, now);
    match details {
      case Threw(f) => r := LoginFailure(f, c.userOrAdmin.value);
      case Ok(None) => r := ServerFault();
      case Ok(Some(d)) => r := WithData(200, "Welcome back, " + c.userName.value + LoginWelcome, Some(d));
    }
  }

  // ---------------------------------------------------------------------------
  // GoogleLogin.

  const GoogleUnknownEmail: string := "User email address not exists " + "in our sysytem..kindly register"
  const GoogleAdminRefused: string := "You do not have permissions " + "to use Google login"

  function GoogleFailure(f: Failure): (r: Reply<TokenDetails>)
    ensures r.status in {400, 404, 500} && r.body.Api? && r.body.data == None
    ensures !IsRaised(f) ==> r == ServerFaultSpaced()
  {
    if !IsRaised(f) then ServerFaultSpaced()
    else if Contains(f.message, "UserName cannot be NULL or empty.") then BadRequest("UserName cannot be null")
    else if Contains(f.message, "User with the provided UserName " + "does not exist.") then
      Plain(404, "User not exists...Kindly register")
    else if Contains(f.message, "Email cannot be NULL or empty.") then BadRequest("Email cannot be NULL or empty.")
    else if TokenDataMissing(f.message) then BadRequest(InvalidData)
    else ServerFault()
  }

  /** GoogleLogin(mail), given the lookup by e-mail, the JWT service's
      tokens and the token tables before the request. No password is asked. */
  function GoogleLoginReply(email: Option<string>, found: Outcome<Option<UserDetails>>,
                            accessToken: Outcome<string>, refreshToken: Outcome<string>,
                            outage: Option<Failure>, access: map<string, TokenRecord>, refresh: map<string, TokenRecord>,
                            now: int): (r: Reply<TokenDetails>)
    ensures !EmailAccepted(email) ==> r.status == 400 && r.body.Api? && r.body.data == None
    // a refused e-mail is told about the first test it fails, in the order of EmailChecks
    ensures FirstFailed(EmailChecks(email, BadEmail)).Some? <==> !EmailAccepted(email)
    ensures FirstFailed(EmailChecks(email, BadEmail)).Some? ==>
              r == BadRequest(FirstFailed(EmailChecks(email, BadEmail)).value)
    ensures EmailAccepted(email) && found == Ok(None) ==> r == Plain(404, GoogleUnknownEmail)
    ensures EmailAccepted(email) && found.Threw? ==> r == GoogleFailure(found.failure)
    // administrators are turned away
    ensures EmailAccepted(email) && found.Ok? && found.value.Some? && found.value.value.role == AdminRole ==>
              r == BadRequest(GoogleAdminRefused)
    ensures EmailAccepted(email) && found.Ok? && found.value.Some? && found.value.value.role != AdminRole ==>
              var s := SignIn(found.value.value, accessToken, refreshToken, outage, access, refresh, now);
              && (s.Threw? ==> r == GoogleFailure(s.failure))
              && (s == Ok(None) ==> r == ServerFaultSpaced())
              && (s.Ok? && s.value.Some? ==>
                    r == WithData(200, "Welcome back, " + found.value.value.userName + LoginWelcome, s.value))
  {
    EmailGuardOrder(email, BadEmail);
    if EmailGuard(email, BadEmail).Some? then BadRequest(EmailGuard(email, BadEmail).value)
    else match found
      case Threw(f) => GoogleFailure(f)
      case Ok(None) => Plain(404, GoogleUnknownEmail)
      case Ok(Some(u)) =>
        if u.role == AdminRole then BadRequest(GoogleAdminRefused)
        else match SignIn(u, accessToken, refreshToken, outage, access, refresh, now)
          case Threw(f) => GoogleFailure(f)
          case Ok(None) => ServerFaultSpaced()
          case Ok(Some(details)) => WithData(200, "Welcome back, " + u.userName + LoginWelcome, Some(details))
  }

  /** Any account that is not an administrator signs in with its e-mail
      alone: with no rows yet, it gets a fresh pair. */
  lemma GoogleLoginWithoutPassword(email: string, u: UserDetails, accessToken: string, refreshToken: string,
                                   access: map<string, TokenRecord>, refresh: map<string, TokenRecord>, now: int)
    requires EmailAccepted(Some(email)) && u.role != AdminRole
    requires u.email !in access && u.email !in refresh
    ensures GoogleLoginReply(Some(email), Ok(Some(u)), Ok(accessToken), Ok(refreshToken), None, access, refresh, now)
            == WithData(200, "Welcome back, " + u.userName + LoginWelcome,
                        Some(TokenDetails(Stored(TokenInsert(u.email, accessToken, now + AccessLifetime), u),
                                          Stored(TokenInsert(u.email, refreshToken, now + RefreshLifetime), u))))
  {
    SignInWithoutRows(u, accessToken, refreshToken, access, refresh, now);
  }

  /** GoogleLogin against the user table and the token tables. */
  method GoogleLogin(email: Option<string>, users: UserStore, tokens: TokenStore,
                     accessToken: Outcome<string>, refreshToken: Outcome<string>, now: int)
    returns (r: Reply<TokenDetails>)
    requires tokens.Valid()
    modifies tokens
    ensures tokens.Valid() && tokens.outage == old(tokens.outage)
    ensures r == GoogleLoginReply(email, users.GetUserByEmail(OrEmpty(email)), accessToken, refreshToken,
                                  old(tokens.outage), old(tokens.access), old(tokens.refresh), now)
    // the token tables are touched only for a known account that is not an administrator
    ensures var found := users.GetUserByEmail(OrEmpty(email));
            if EmailAccepted(email) && found.Ok? && found.value.Some? && found.value.value.role != AdminRole then
              && tokens.access == SignedIn(Access, found.value.value, accessToken, refreshToken, old(tokens.outage), old(tokens.access), now)
              && tokens.refresh == SignedIn(Refresh, found.value.value, accessToken, refreshToken, old(tokens.outage), old(tokens.refresh), now)
            else tokens.access == old(tokens.access) && tokens.refresh == old(tokens.refresh)
  {
    var guard := EmailGuard(email, BadEmail);
    if guard.Some? {
      return BadRequest(guard.value);
    }
    var userDetails := users.GetUserByEmail(email.value);
    if userDetails.Threw? {
      return GoogleFailure(userDetails.failure);
    }
    if userDetails.value.None? {
      return Plain(404, GoogleUnknownEmail);
    }
    var u := userDetails.value.value;
    if u.role == AdminRole {
      return BadRequest(GoogleAdminRefused);
    }
    var details := IssueTokens(u, accessToken, refreshToken, tokens, now);
    match details {
      case Threw(f) => r := GoogleFailure(f);
      case Ok(None) => r := ServerFaultSpaced();
      case Ok(Some(d)) => r := WithData(200, "Welcome back, " + u.userName + LoginWelcome, Some(d));
    }
  }

  // ---------------------------------------------------------------------------
  // Logout.

  function LogoutFailure(f: Failure): (r: Reply<string>)
    ensures r.status in {400, 500} && r.body.Api? && r.body.data == None
    ensures !IsRaised(f) ==> r == ServerFaultSpaced()
  {
    if IsRaised(f) && Contains(f.message, "Email cannot be NULL or empty.") then BadRequest("Email can not null")
    else ServerFaultSpaced()
  }

  /** Logout(mail) against the token tables: both rows of the e-mail go,
      and the answer is 200 whether or not there were any. */
  method Logout(email: Option<string>, tokens: TokenStore) returns (r: Reply<string>)
    requires tokens.Valid()
    modifies tokens
    ensures tokens.Valid() && tokens.outage == old(tokens.outage)
    ensures !EmailAccepted(email) ==>
              r == BadRequest(EmailGuard(email, BadEmail).value) && unchanged(tokens)
    ensures EmailAccepted(email) && old(tokens.outage).Some? ==>
              r == LogoutFailure(old(tokens.outage).value) && unchanged(tokens)
    ensures EmailAccepted(email) && old(tokens.outage).None? ==>
              && r == Plain(200, "Logout Successfully..")
              && tokens.access == old(tokens.access) - {email.value}
              && tokens.refresh == old(tokens.refresh) - {email.value}
    // after a successful logout no token row of the e-mail is left
    ensures r.status == 200 ==> email.value !in tokens.access && email.value !in tokens.refresh
  {
    var guard := EmailGuard(email, BadEmail);
    if guard.Some? {
      return BadRequest(guard.value);
    }
    var deleted := tokens.DeleteOnLogout(email.value);
    match deleted {
      case Threw(f) => r := LogoutFailure(f);
      case Ok(_) => r := Plain(200, "Logout Successfully..");
    }
  }

  // ---------------------------------------------------------------------------
  // SendForgotPasswordEmail and SendOTPDetails.

  /** An acceptable e-mail and a stated role. */
  predicate MailRequestAccepted(email: Option<string>, role: Option<string>)
  {
    EmailAccepted(email) && !IsNullOrEmpty(role)
  }

  function MailRequestGuard(email: Option<string>, role: Option<string>): (m: Option<string>)
    ensures m.None? <==> MailRequestAccepted(email, role)
    ensures IsNullOrEmpty(email) ==> m == Some(EmailRequired)
  {
    if EmailGuard(email, BadEmail).Some? then EmailGuard(email, BadEmail)
    else if IsNullOrEmpty(role) then Some(RoleMissing)
    else None
  }

  /** The e-mail tests first, then the role. */
  function MailRequestChecks(email: Option<string>, role: Option<string>): seq<Check>
  {
    EmailChecks(email, BadEmail) + [Check(!IsNullOrEmpty(role), RoleMissing)]
  }

  /** The mail guard refuses with the message of its first failing test. */
  lemma MailRequestGuardOrder(email: Option<string>, role: Option<string>)
    ensures MailRequestGuard(email, role) == FirstFailed(MailRequestChecks(email, role))
  {
    var tail := [Check(!IsNullOrEmpty(role), RoleMissing)];
    FirstFailedAppend(EmailChecks(email, BadEmail), tail);
    EmailGuardOrder(email, BadEmail);
    if IsNullOrEmpty(role) { FirstFailedAt(tail, 0); }
  }

  const ForgotProblem: string := "Problem while forgot password.., " + "Please try again."
  const OtpProblem: string := "Problem while sending OTP .., " + "Please try again."

  /** How both mail actions turn the repository's OperationResult into a
      reply. A failed result without a message dereferences null, which the
      catch-all turns into a 500. */
  function ResultReply(result: OperationResult, problem: string): (r: Reply<string>)
    ensures r.status in {200, 400, 404, 500, 503} && r.body.Api? && r.body.data == None
    ensures result.success ==> r == Reply(200, Api(200, result.message, None))
    ensures !result.success && r.status != 500 ==> r.body.message == result.message
  {
    if !result.success && result.message.None? then ServerFaultSpaced()
    else if !result.success && Contains(result.message.value, EmailNotFound) then
      Reply(404, Api(404, result.message, None))
    else if !result.success && Contains(result.message.value, problem) then
      Reply(400, Api(400, result.message, None))
    else if !result.success && Contains(result.message.value, ServiceUnavailable) then
      Reply(503, Api(503, result.message, None))
    else if result.success then Reply(200, Api(200, result.message, None))
    else ServerFaultSpaced()
  }

  function ForgotPasswordFailure(f: Failure): (r: Reply<string>)
    ensures r.status in {400, 500} && r.body.Api? && r.body.data == None
    ensures !IsRaised(f) ==> r == ServerFaultSpaced()
  {
    if !IsRaised(f) then ServerFaultSpaced()
    else if Contains(f.message, "UserName cannot be null.") then BadRequest("name cannot be null.")
    else if Contains(f.message, "Code cannot be null.") then BadRequest(InvalidData)
    else if Contains(f.message, "User Id cannot be null.") then BadRequest(InvalidData)
    else if Contains(f.message, "Email cannot be null.") then BadRequest("Email cannot be null.")
    else ServerFaultSpaced()
  }

  /** SendForgotPasswordEmail past its guards, given the repository's answer. */
  function ForgotPasswordReply(answer: Outcome<OperationResult>): (r: Reply<string>)
    ensures answer.Threw? ==> r == ForgotPasswordFailure(answer.failure)
    ensures answer.Ok? ==> r == ResultReply(answer.value, ForgotProblem)
  {
    match answer
      case Threw(f) => ForgotPasswordFailure(f)
      case Ok(result) => ResultReply(result, ForgotProblem)
  }

  /** The repository never answers with the texts the 400 and 503 branches
      look for: an unknown e-mail is a 404, a sent mail a 200, and a failing
      mail service is thrown and becomes a 500. */
  lemma ForgotPasswordNever503(answer: Outcome<OperationResult>)
    requires ForgotPasswordOutcome(answer)
    ensures ForgotPasswordReply(answer).status != 503
    ensures answer.Ok? ==> ForgotPasswordReply(answer).status in {200, 404}
  {
    ContainsItself(EmailNotFound);
  }

  /** The insert procedure raising after the link was mailed reaches the
      catch, whose missing-name branch answers 400. */
  lemma ForgotInsertRaiseAfterMail(users: seq<UserDetails>, email: string, role: string)
    requires Registered(FindByEmail(users, email), role)
    ensures ForgotPasswordReply(ForgotPasswordAnswer(None, users, email, role, None,
                                                     Some(SqlFailure(50000, "UserName cannot be null."))))
            == BadRequest("name cannot be null.")
  {
    ContainsItself("UserName cannot be null.");
  }

  /** SendForgotPasswordEmail against the user table. */
  method SendForgotPasswordEmail(email: Option<string>, role: Option<string>, users: UserStore,
                                 draws: seq<int>, resetUrl: string, htmlEncode: string -> string,
                                 mailFailure: Option<Failure>, reportedId: int, insertFailure: Option<Failure>)
    returns (r: Reply<string>)
    requires users.Valid() && ValidDraws(draws)
    modifies users
    ensures users.Valid()
    ensures !MailRequestAccepted(email, role) ==>
              r == BadRequest(MailRequestGuard(email, role).value) && unchanged(users)
    // a refused request is told about the first test it fails, in the order of MailRequestChecks
    ensures FirstFailed(MailRequestChecks(email, role)).Some? <==> !MailRequestAccepted(email, role)
    ensures FirstFailed(MailRequestChecks(email, role)).Some? ==>
              r == BadRequest(FirstFailed(MailRequestChecks(email, role)).value)
    ensures MailRequestAccepted(email, role) ==>
              r == ForgotPasswordReply(ForgotPasswordAnswer(old(users.outage), old(users.users), email.value,
                                                            role.value, mailFailure, insertFailure))
    ensures r.status != 503
  {
    MailRequestGuardOrder(email, role);
    var guard := MailRequestGuard(email, role);
    if guard.Some? {
      return BadRequest(guard.value);
    }
    var result := users.ForgotPasswordEmail(email.value, role.value, draws, resetUrl, htmlEncode, mailFailure, reportedId,
                                           insertFailure);
    r := ForgotPasswordReply(result);
    ForgotPasswordNever503(result);
  }

  function SendOtpFailure(f: Failure): (r: Reply<string>)
    ensures r.status in {400, 500} && r.body.Api? && r.body.data == None
    ensures !IsRaised(f) ==> r == ServerFaultSpaced()
  {
    if !IsRaised(f) then ServerFaultSpaced()
    else if Contains(f.message, "UserName cannot be null.") then BadRequest("name cannot be null.")
    else if Contains(f.message, "OTP cannot be null.") then BadRequest("Invalid OTP..try again")
    else if Contains(f.message, "User Id cannot be null.") then BadRequest(InvalidData)
    else if Contains(f.message, "Email cannot be null.") then BadRequest("Email cannot be null.")
    else ServerFaultSpaced()
  }

  /** SendOTPDetails past its guards, given the repository's answer. */
  function SendOtpReply(answer: Outcome<OperationResult>): (r: Reply<string>)
    ensures answer.Threw? ==> r == SendOtpFailure(answer.failure)
    ensures answer.Ok? ==> r == ResultReply(answer.value, OtpProblem)
  {
    match answer
      case Threw(f) => SendOtpFailure(f)
      case Ok(result) => ResultReply(result, OtpProblem)
  }

  lemma SendOtpNever503(answer: Outcome<OperationResult>)
    requires SendOtpOutcome(answer)
    ensures SendOtpReply(answer).status != 503
    ensures answer.Ok? ==> SendOtpReply(answer).status in {200, 404}
  {
    ContainsItself(EmailNotFound);
  }

  /** The OTP insert raising after the OTP was mailed reaches the catch,
      whose null-OTP branch answers 400. */
  lemma SendOtpInsertRaiseAfterMail(users: seq<UserDetails>, email: string, role: string)
    requires Registered(FindByEmail(users, email), role)
    ensures SendOtpReply(SendOtpAnswer(None, users, email, role, None, Some(SqlFailure(50000, "OTP cannot be null."))))
            == BadRequest("Invalid OTP..try again")
  {
    var m := "OTP cannot be null.";
    LongerNotContained(m, "UserName cannot be null.");
    ContainsItself(m);
  }

  /** SendOTPDetails against the user table; `otp` is the four-digit draw. */
  method SendOTPDetails(email: Option<string>, role: Option<string>, users: UserStore,
                        otp: int, mailFailure: Option<Failure>, reportedId: int, insertFailure: Option<Failure>)
    returns (r: Reply<string>)
    requires users.Valid() && 1000 <= otp < 10000
    modifies users
    ensures users.Valid()
    ensures !MailRequestAccepted(email, role) ==>
              r == BadRequest(MailRequestGuard(email, role).value) && unchanged(users)
    // a refused request is told about the first test it fails, in the order of MailRequestChecks
    ensures FirstFailed(MailRequestChecks(email, role)).Some? <==> !MailRequestAccepted(email, role)
    ensures FirstFailed(MailRequestChecks(email, role)).Some? ==>
              r == BadRequest(FirstFailed(MailRequestChecks(email, role)).value)
    ensures MailRequestAccepted(email, role) ==>
              r == SendOtpReply(SendOtpAnswer(old(users.outage), old(users.users), email.value, role.value,
                                              mailFailure, insertFailure))
    ensures r.status != 503
  {
    MailRequestGuardOrder(email, role);
    var guard := MailRequestGuard(email, role);
    if guard.Some? {
      return BadRequest(guard.value);
    }
    var result := users.SendOtpByEmail(email.value, role.value, otp, mailFailure, reportedId, insertFailure);
    r := SendOtpReply(result);
    SendOtpNever503(result);
  }

  // ---------------------------------------------------------------------------
  // ResetPassword.

  /** ResetPassword: the new password, the user id as text and the code. */
  datatype ResetRequest = ResetRequest(password: Option<string>, userId: Option<string>, code: Option<string>)

  predicate ResetAccepted(q: ResetRequest)
  {
    6 <= Length(q.password) <= 255 && !IsNullOrEmpty(q.userId) && !IsNullOrEmpty(q.code)
  }

  function ResetGuard(q: ResetRequest): (m: Option<string>)
    ensures m.None? <==> ResetAccepted(q)
    ensures IsNullOrEmpty(q.password) ==> m == Some(PasswordRequired)
  {
    if IsNullOrEmpty(q.password) then Some(PasswordRequired)
    else if Length(q.password) < 6 || Length(q.password) > 255 then Some("Password must be between 6 and 255 characters.")
    else if IsNullOrEmpty(q.userId) then Some("User can not be null.")
    else if IsNullOrEmpty(q.code) then Some(InvalidData)
    else None
  }

  /** The reset tests in the order the action makes them. */
  function ResetChecks(q: ResetRequest): seq<Check>
  {
    [Check(!IsNullOrEmpty(q.password), PasswordRequired),
     Check(6 <= Length(q.password) <= 255, "Password must be between 6 and 255 characters."),
     Check(!IsNullOrEmpty(q.userId), "User can not be null."),
     Check(!IsNullOrEmpty(q.code), InvalidData)]
  }

  /** The reset guard refuses with the message of its first failing test. */
  lemma ResetGuardOrder(q: ResetRequest)
    ensures ResetGuard(q) == FirstFailed(ResetChecks(q))
  {
    var k := ResetChecks(q);
    if IsNullOrEmpty(q.password) { FirstFailedAt(k, 0); }
    else if Length(q.password) < 6 || Length(q.password) > 255 { FirstFailedAt(k, 1); }
    else if IsNullOrEmpty(q.userId) { FirstFailedAt(k, 2); }
    else if IsNullOrEmpty(q.code) { FirstFailedAt(k, 3); }
  }

  function ResetFailure(f: Failure): (r: Reply<string>)
    ensures r.status in {400, 404, 500} && r.body.Api? && r.body.data == None
    ensures !IsRaised(f) ==> r == ServerFaultSpaced()
  {
    if !IsRaised(f) then ServerFaultSpaced()
    else if Contains(f.message, "User Id cannot be NULL or empty.") then BadRequest(InvalidData)
    else if Contains(f.message, "User with the provided User Id " + "does not exist.") then Plain(404, "details not exists")
    else if Contains(f.message, "Email cannot be NULL or empty.") then BadRequest(InvalidData)
    else ServerFaultSpaced()
  }

  /** ResetPassword past its guards: the result's message goes back as it
      is, under 200 on success and 500 otherwise. */
  function ResetReply(answer: Outcome<OperationResult>): (r: Reply<string>)
    ensures answer.Ok? ==> r.body == Api(r.status, answer.value.message, None)
    ensures answer.Ok? ==> (r.status == 200 <==> answer.value.success)
    ensures answer.Ok? && !answer.value.success ==> r.status == 500
    ensures answer.Threw? ==> r == ResetFailure(answer.failure)
  {
    match answer
      case Threw(f) => ResetFailure(f)
      case Ok(result) =>
        if result.success then Reply(200, Api(200, result.message, None))
        else Reply(500, Api(500, result.message, None))
  }

  /** An unknown user id, a stale code, and a user with no code on record
      all come back as 500s; the last one with no message at all. */
  lemma ResetRefusalsAre500()
    ensures ResetReply(Ok(ResetResult(UnknownUser, 0))) == Reply(500, Api(500, Some(InvalidUser), None))
    ensures ResetReply(Ok(ResetResult(Mismatch, 0))) == Reply(500, Api(500, Some(LinkExpired), None))
    ensures ResetReply(Ok(ResetResult(NoCode, 0))) == Reply(500, Api(500, None, None))
  {
  }

  /** ResetPassword against the user table; `hash` is BCrypt's HashPassword. */
  method ResetPassword(q: ResetRequest, users: UserStore, hash: string -> string, updateFailure: Option<Failure>)
    returns (r: Reply<string>)
    requires users.Valid()
    modifies users
    ensures users.Valid()
    ensures !ResetAccepted(q) ==> r == BadRequest(ResetGuard(q).value) && unchanged(users)
    // a refused request is told about the first test it fails, in the order of ResetChecks
    ensures FirstFailed(ResetChecks(q)).Some? <==> !ResetAccepted(q)
    ensures FirstFailed(ResetChecks(q)).Some? ==> r == BadRequest(FirstFailed(ResetChecks(q)).value)
    ensures ResetAccepted(q) ==>
              r == ResetReply(ResetAnswer(old(users.outage), old(users.users), old(users.resetCodes),
                                          q.userId.value, q.code.value, updateFailure))
    // a 200 leaves the new password's hash on the account the link named
    ensures r.status == 200 ==>
              && ParseInt32(q.userId.value).Some?
              && var user := FindById(users.users, ParseInt32(q.userId.value).value);
                 user.Some? && user.value.passwordHash == hash(q.password.value)
  {
    ResetGuardOrder(q);
    var guard := ResetGuard(q);
    if guard.Some? {
      return BadRequest(guard.value);
    }
    var result := users.ResetPassword(q.userId.value, q.code.value, q.password.value, hash, updateFailure);
    r := ResetReply(result);
  }

  // ---------------------------------------------------------------------------
  // ConfirmOTPDetails.

  /** ConfirmOTP: the e-mail and the OTP typed in. */
  datatype OtpConfirmation = OtpConfirmation(email: Option<string>, otp: Int32)

  /** An acceptable e-mail and a non-zero OTP written with at least four
      characters, a minus sign included. */
  predicate ConfirmAccepted(q: OtpConfirmation)
  {
    EmailAccepted(q.email) && q.otp != 0 && |IntToString(q.otp)| >= 4
  }

  function ConfirmGuard(q: OtpConfirmation): (m: Option<string>)
    ensures m.None? <==> ConfirmAccepted(q)
    ensures IsNullOrEmpty(q.email) ==> m == Some(EmailRequired)
  {
    if EmailGuard(q.email, BadEmailHint).Some? then EmailGuard(q.email, BadEmailHint)
    else if q.otp == 0 then Some("OTP can not be null")
    else if |IntToString(q.otp)| < 4 then Some("OTP must be atleast 4 digits")
    else None
  }

  /** The e-mail tests first, then the two OTP tests. */
  function ConfirmChecks(q: OtpConfirmation): seq<Check>
  {
    EmailChecks(q.email, BadEmailHint) + OtpChecks(q.otp)
  }

  function OtpChecks(otp: Int32): seq<Check>
  {
    [Check(otp != 0, "OTP can not be null"),
     Check(|IntToString(otp)| >= 4, "OTP must be atleast 4 digits")]
  }

  /** The confirmation guard refuses with the message of its first failing test. */
  lemma ConfirmGuardOrder(q: OtpConfirmation)
    ensures ConfirmGuard(q) == FirstFailed(ConfirmChecks(q))
  {
    var tail := OtpChecks(q.otp);
    FirstFailedAppend(EmailChecks(q.email, BadEmailHint), tail);
    EmailGuardOrder(q.email, BadEmailHint);
    if q.otp == 0 { FirstFailedAt(tail, 0); }
    else if |IntToString(q.otp)| < 4 { FirstFailedAt(tail, 1); }
  }

  /** The OTP check in numbers: at least 1000, or at most -100. */
  lemma OtpLength(otp: Int32)
    ensures |IntToString(otp)| >= 4 <==> otp >= 1000 || otp <= -100
  {
    IntToStringShorter(otp, 4);
    assert Pow10(2) == 100;
    assert Pow10(3) == 1000;
  }

  /** A three-digit negative OTP passes the guards while 999 does not. */
  lemma NegativeOtpAccepted(q: OtpConfirmation)
    requires ConfirmAccepted(q)
    ensures ConfirmAccepted(q.(otp := -100))
    ensures !ConfirmAccepted(q.(otp := 999))
  {
    OtpLength(-100);
    OtpLength(999);
  }

  function ConfirmFailure(f: Failure): (r: Reply<TokenDetails>)
    ensures r.status in {400, 404, 500} && r.body.Api? && r.body.data == None
    ensures !IsRaised(f) ==> r == ServerFaultSpaced()
  {
    if !IsRaised(f) then ServerFaultSpaced()
    else if Contains(f.message, "UserName cannot be null.") then BadRequest(InvalidData)
    else if Contains(f.message, "OTP cannot be null.") then BadRequest("OTP cannot be null")
    else if Contains(f.message, "OTP code must be 4 digits.") then BadRequest("OTP code must be 4 digits.")
    else if Contains(f.message, "Email cannot be null.") then BadRequest("Email cannot be null.")
    else if Contains(f.message, "Email not exists.") then Plain(404, "Email not exists.")
    else if Contains(f.message, "User Id cannot be null.") then BadRequest(InvalidData)
    else ServerFaultSpaced()
  }

  /**
   * ConfirmOTPDetails past its guards, given the OTP check's answer, the
   * account looked up afterwards, the JWT service's tokens and the token
   * tables before the request. A confirmed OTP first deletes the e-mail's
   * rows (whatever the count), so the pair is issued over tables without
   * them; the welcome names the access row's user.
   */
  function ConfirmReply(email: string, answer: Outcome<OperationResult>, found: Outcome<Option<UserDetails>>,
                        accessToken: Outcome<string>, refreshToken: Outcome<string>,
                        outage: Option<Failure>, access: map<string, TokenRecord>, refresh: map<string, TokenRecord>,
                        now: int): (r: Reply<TokenDetails>)
    ensures answer.Threw? ==> r == ConfirmFailure(answer.failure)
    // an OTP that does not confirm is a 500, whatever the reason
    ensures answer.Ok? && !answer.value.success ==> r == ServerFaultSpaced()
    ensures r.status == 200 ==>
              && answer.Ok? && answer.value.success && outage.None? && found.Ok? && found.value.Some?
              && r.body.Api? && r.body.data.Some?
              && SignIn(found.value.value, accessToken, refreshToken, None, access - {email}, refresh - {email}, now)
                 == Ok(r.body.data)
  {
    match answer
      case Threw(f) => ConfirmFailure(f)
      case Ok(result) =>
        if !result.success then ServerFaultSpaced()
        else if outage.Some? then ConfirmFailure(outage.value)
        else match found
          case Threw(f) => ConfirmFailure(f)
          case Ok(None) => ServerFaultSpaced()
          case Ok(Some(u)) =>
            match SignIn(u, accessToken, refreshToken, None, access - {email}, refresh - {email}, now)
              case Threw(f) => ConfirmFailure(f)
              case Ok(None) => ServerFaultSpaced()
              case Ok(Some(details)) =>
                WithData(200, "Welcome back, " + details.access.userName + LoginWelcome, Some(details))
  }

  /** A confirmed OTP never reuses a row: the account gets the pair just
      written, and the welcome names it. */
  lemma ConfirmedOtpIssuesFreshTokens(email: string, result: OperationResult, u: UserDetails,
                                      accessToken: string, refreshToken: string,
                                      access: map<string, TokenRecord>, refresh: map<string, TokenRecord>, now: int)
    requires result.success && u.email == email
    ensures ConfirmReply(email, Ok(result), Ok(Some(u)), Ok(accessToken), Ok(refreshToken), None, access, refresh, now)
            == WithData(200, "Welcome back, " + u.userName + LoginWelcome,
                        Some(TokenDetails(Stored(TokenInsert(email, accessToken, now + AccessLifetime), u),
                                          Stored(TokenInsert(email, refreshToken, now + RefreshLifetime), u))))
  {
    SignInWithoutRows(u, accessToken, refreshToken, access - {email}, refresh - {email}, now);
  }

  /** ConfirmOTPDetails against the user table and the token tables. */
  method ConfirmOTPDetails(q: OtpConfirmation, users: UserStore, tokens: TokenStore,
                           accessToken: Outcome<string>, refreshToken: Outcome<string>, now: int)
    returns (r: Reply<TokenDetails>)
    requires tokens.Valid()
    modifies tokens
    ensures tokens.Valid() && tokens.outage == old(tokens.outage)
    ensures !ConfirmAccepted(q) ==> r == BadRequest(ConfirmGuard(q).value) && unchanged(tokens)
    // a refused request is told about the first test it fails, in the order of ConfirmChecks
    ensures FirstFailed(ConfirmChecks(q)).Some? <==> !ConfirmAccepted(q)
    ensures FirstFailed(ConfirmChecks(q)).Some? ==> r == BadRequest(FirstFailed(ConfirmChecks(q)).value)
    ensures ConfirmAccepted(q) ==>
              r == ConfirmReply(q.email.value, users.ConfirmOtp(q.email.value, q.otp),
                                users.GetUserByEmail(q.email.value), accessToken, refreshToken,
                                old(tokens.outage), old(tokens.access), old(tokens.refresh), now)
    // the e-mail's rows are deleted exactly when the OTP confirms
    ensures !(ConfirmAccepted(q) && users.ConfirmOtp(q.email.value, q.otp) == Ok(OperationResult(true, Some(OtpConfirmed))))
            ==> unchanged(tokens)
    ensures ConfirmAccepted(q) && users.ConfirmOtp(q.email.value, q.otp).Ok? && old(tokens.outage).None? &&
            users.ConfirmOtp(q.email.value, q.otp).value.success ==>
              var u := FindByEmail(users.users, q.email.value).value;
              && tokens.access == SignedIn(Access, u, accessToken, refreshToken, None, old(tokens.access) - {q.email.value}, now)
              && tokens.refresh == SignedIn(Refresh, u, accessToken, refreshToken, None, old(tokens.refresh) - {q.email.value}, now)
  {
    ConfirmGuardOrder(q);
    var guard := ConfirmGuard(q);
    if guard.Some? {
      return BadRequest(guard.value);
    }
    var email := q.email.value;
    var result := users.ConfirmOtp(email, q.otp);
    if result.Threw? {
      return ConfirmFailure(result.failure);
    }
    if !result.value.success {
      return ServerFaultSpaced();
    }
    var deleted := tokens.DeleteOnLogout(email);
    if deleted.Threw? {
      return ConfirmFailure(deleted.failure);
    }
    // the OTP check has just found the account, so the lookup cannot miss
    var u := users.GetUserByEmail(email).value.value;
    var details := IssueTokens(u, accessToken, refreshToken, tokens, now);
    match details {
      case Threw(f) => r := ConfirmFailure(f);
      case Ok(None) => r := ServerFaultSpaced();
      case Ok(Some(d)) => r := WithData(200, "Welcome back, " + d.access.userName + LoginWelcome, Some(d));
    }
  }
}
