/**
 * Authentication: password login (`auth/user.py`), the access token and the
 * cookie that carries it (`auth/jwthandler.py`), and the login response of
 * `routes/users.py`. Password hashing and the JWT codec are parameters:
 * `verify(plain, hashed)` is bcrypt's check and `decode` stands for
 * `jwt.decode` with the server's key and clock (None when the signature,
 * algorithm or expiry check fails).
 */
module Auth {
  import opened Wrappers
  import opened PyText
  import opened Records
  import opened Store

  /** An `HTTPException` as the client receives it. */
  datatype HttpFailure = HttpFailure(status: nat, detail: string, wwwAuthenticate: Option<string>)

  const BadCredentials := HttpFailure(401, "Incorrect username or password", None)
  const NotAuthenticated := HttpFailure(401, "Not authenticated", Some("Bearer"))
  const InvalidCredentials := HttpFailure(401, "Could not validate credentials", Some("Bearer"))

  // ---------------------------------------------------------------------
  // validate_user

  /** `OAuth2PasswordRequestForm`: the submitted username and password. */
  datatype LoginForm = LoginForm(username: string, password: string)

  /** `UserDatabaseSchema`: a user with the password hash, without timestamps. */
  datatype UserDatabase = UserDatabase(id: int, username: string, fullName: Option<string>, password: Option<string>)

  /** `verify_password`: a missing hash never matches. */
  function VerifyPassword(plain: string, hashed: Option<string>, verify: (string, string) -> bool): (ok: bool)
    ensures ok <==> hashed.Some? && verify(plain, hashed.value)
  {
    hashed.Some? && verify(plain, hashed.value)
  }

  /**
   * `validate_user`: the stored user when the name exists and the password
   * matches its hash; an unknown name and a wrong password fail alike.
   */
  function ValidateUser(users: seq<UserRow>, form: LoginForm, verify: (string, string) -> bool): (r: Result<UserDatabase, HttpFailure>)
    ensures r.Err? ==> r.error == BadCredentials
    ensures r.Ok? <==>
      && FindByUsername(users, form.username).Some?
      && VerifyPassword(form.password, FindByUsername(users, form.username).value.password, verify)
    ensures r.Ok? ==> r.value.username == form.username
    ensures r.Ok? ==> var u := FindByUsername(users, form.username).value;
      r.value == UserDatabase(u.id, u.username, u.fullName, u.password)
  {
    match FindByUsername(users, form.username)
    case None => Err(BadCredentials)
    case Some(u) =>
      if !VerifyPassword(form.password, u.password, verify) then Err(BadCredentials)
      else Ok(UserDatabase(u.id, u.username, u.fullName, u.password))
  }

  /**
   * A user who registered with a password can log in with it, given that
   * the hash function's output verifies against its input.
   */
  lemma RegisteredUserCanLogIn(t: Tables, input: UserIn, hash: string -> string, verify: (string, string) -> bool, now: int)
    requires Valid(t)
    requires CreateUserStep(t, input, hash, now).result.Ok?
    requires verify(input.password.value, hash(input.password.value))
    ensures var o := CreateUserStep(t, input, hash, now);
      ValidateUser(o.tables.users, LoginForm(input.username, input.password.value), verify).Ok?
  {
    CreatedUserIsFound(t, input, hash, now);
  }

  // ---------------------------------------------------------------------
  // The Authorization cookie

  /** `get_authorization_scheme_param`: a missing or empty value gives two empty strings. */
  function SchemeParam(value: Option<string>): (r: (string, string))
    ensures value.None? || value.value == [] ==> r == ("", "")
    ensures value.Some? && ' ' in value.value ==> value.value == r.0 + " " + r.1
    ensures ' ' !in r.0
  {
    if value.None? || value.value == [] then ("", "") else SplitAtFirstSpace(value.value)
  }

  /**
   * `OAuth2PasswordBearerCookie.__call__`: the token after a "Bearer" scheme
   * (in any letter case) in the `Authorization` cookie. Without one, a 401
   * when `autoError` is set and no token otherwise.
   */
  function BearerToken(cookie: Option<string>, autoError: bool): (r: Result<Option<string>, HttpFailure>)
    ensures r.Err? ==> autoError && r.error == NotAuthenticated
    ensures r == Ok(None) ==> !autoError
    ensures r.Ok? && r.value.Some? <==>
      cookie.Some? && cookie.value != [] && AsciiLower(SchemeParam(cookie).0) == "bearer"
    ensures r.Ok? && r.value.Some? ==>
      cookie.value == SchemeParam(cookie).0 + " " + r.value.value || (' ' !in cookie.value && r.value.value == "")
  {
    var (scheme, param) := SchemeParam(cookie);
    if cookie.None? || cookie.value == [] || AsciiLower(scheme) != "bearer" then
      if autoError then Err(NotAuthenticated) else Ok(None)
    else Ok(Some(param))
  }

  /** The cookie value `login` sets: "Bearer {token}". */
  function LoginCookie(token: string): (c: string)
    ensures SplitAtFirstSpace(c) == ("Bearer", token)
  {
    assert ' ' !in "Bearer";
    SplitWordAndRest("Bearer", token);
    assert "Bearer " + token == "Bearer" + " " + token;
    "Bearer " + token
  }

  /** The cookie `login` sets yields exactly the token it was built from. */
  lemma LoginCookieRoundTrip(token: string, autoError: bool)
    ensures BearerToken(Some(LoginCookie(token)), autoError) == Ok(Some(token))
  {
    assert ' ' !in "Bearer";
    SplitWordAndRest("Bearer", token);
    assert LoginCookie(token) == "Bearer" + " " + token;
    assert AsciiLower("Bearer") == "bearer";
  }

  /** The scheme word is matched in any letter case. */
  lemma SchemeCaseIgnored(scheme: string, token: string, autoError: bool)
    requires ' ' !in scheme && AsciiLower(scheme) == "bearer"
    ensures BearerToken(Some(scheme + " " + token), autoError) == Ok(Some(token))
  {
    SplitWordAndRest(scheme, token);
  }

  // ---------------------------------------------------------------------
  // Access tokens

  /** A JSON value inside a token's claims. */
  datatype Claim = Text(text: string) | Number(number: int) | Null

  const DefaultExpirySeconds := 15 * 60
  const AccessTokenExpireMinutes := 30

  /**
   * The claims `create_access_token` signs at time `now` (seconds): the
   * given ones plus "exp", `delta` seconds ahead when given and nonzero,
   * fifteen minutes ahead otherwise.
   */
  function AccessTokenClaims(data: map<string, Claim>, delta: Option<int>, now: int): (claims: map<string, Claim>)
    ensures "exp" in claims
    ensures claims["exp"] == Number(if delta.Some? && delta.value != 0 then now + delta.value else now + DefaultExpirySeconds)
    ensures claims.Keys == data.Keys + {"exp"}
    ensures forall k :: k in data && k != "exp" ==> claims[k] == data[k]
  {
    var expire := if delta.Some? && delta.value != 0 then now + delta.value else now + DefaultExpirySeconds;
    data["exp" := Number(expire)]
  }

  /**
   * `get_current_user`: the user named by the token's "sub" claim. Every
   * failure is the same 401: a token `decode` refuses, a "sub" that is not a
   * string (python-jose's `jwt.decode` refuses it with a `JWTClaimsError`,
   * which is a `JWTError`), a missing "sub", and a name with no user.
   */
  function CurrentUser(users: seq<UserRow>, token: string, decode: string -> Option<map<string, Claim>>): (r: Result<UserOut, HttpFailure>)
    ensures r.Err? ==> r.error == InvalidCredentials
    ensures r.Ok? <==>
      && decode(token).Some? && "sub" in decode(token).value && decode(token).value["sub"].Text?
      && FindByUsername(users, decode(token).value["sub"].text).Some?
    ensures r.Ok? ==> var u := FindByUsername(users, decode(token).value["sub"].text).value;
      r.value == UserOut(u.id, u.username, u.fullName) && u.username == decode(token).value["sub"].text
  {
    match decode(token)
    case None => Err(InvalidCredentials)
    case Some(payload) =>
      if "sub" !in payload || !payload["sub"].Text? then Err(InvalidCredentials)
      else
        match FindByUsername(users, payload["sub"].text)
        case None => Err(InvalidCredentials)
        case Some(u) => Ok(OutOf(u))
  }

  /** The `get_current_user` dependency chain: the cookie, then the token. */
  function Authenticate(users: seq<UserRow>, cookie: Option<string>, decode: string -> Option<map<string, Claim>>): (r: Result<UserOut, HttpFailure>)
    ensures BearerToken(cookie, true).Err? ==> r == Err(NotAuthenticated)
    ensures BearerToken(cookie, true).Ok? ==>
      BearerToken(cookie, true).value.Some? && r == CurrentUser(users, BearerToken(cookie, true).value.value, decode)
  {
    match BearerToken(cookie, true)
    case Err(e) => Err(e)
    case Ok(token) => if token.Some? then CurrentUser(users, token.value, decode) else Err(NotAuthenticated)
  }

  // ---------------------------------------------------------------------
  // login

  /** The body and cookie of a successful `login`. */
  datatype LoginResponse = LoginResponse(message: string, cookie: string, maxAge: nat)

  const LoggedInMessage := "You've successfully logged in"
  const CookieMaxAge := 1800

  /** The claims of a login token: the username as "sub", thirty minutes of validity. */
  function LoginClaims(username: string, now: int): (claims: map<string, Claim>)
    ensures "sub" in claims && claims["sub"] == Text(username)
    ensures "exp" in claims && claims["exp"].Number? && claims["exp"].number > now
  {
    AccessTokenClaims(map["sub" := Text(username)], Some(AccessTokenExpireMinutes * 60), now)
  }

  /** `login`: validate the form, sign a token for the user, set it as the cookie. */
  function Login(users: seq<UserRow>, form: LoginForm, verify: (string, string) -> bool,
                 encode: map<string, Claim> -> string, now: int): (r: Result<LoginResponse, HttpFailure>)
    ensures r.Err? <==> ValidateUser(users, form, verify).Err?
    ensures r.Err? ==> r.error == BadCredentials
    ensures r.Ok? ==> r.value.cookie == LoginCookie(encode(LoginClaims(form.username, now)))
    ensures r.Ok? ==> r.value.maxAge == CookieMaxAge && r.value.message == LoggedInMessage
  {
    match ValidateUser(users, form, verify)
    case Err(e) => Err(e)
    case Ok(u) => Ok(LoginResponse(LoggedInMessage, LoginCookie(encode(LoginClaims(u.username, now))), CookieMaxAge))
  }

  /** The login token expires thirty minutes after it is issued, and names the user. */
  lemma LoginClaimsContents(username: string, now: int)
    ensures LoginClaims(username, now).Keys == {"sub", "exp"}
    ensures LoginClaims(username, now)["sub"] == Text(username)
    ensures LoginClaims(username, now)["exp"] == Number(now + 1800)
  {
  }

  /**
   * Logging in and then sending back the cookie authenticates as the same
   * user, provided the codec decodes what it signed.
   */
  lemma LoginThenAuthenticate(users: seq<UserRow>, form: LoginForm, verify: (string, string) -> bool,
                              encode: map<string, Claim> -> string, decode: string -> Option<map<string, Claim>>, now: int)
    requires Login(users, form, verify, encode, now).Ok?
    requires decode(encode(LoginClaims(form.username, now))) == Some(LoginClaims(form.username, now))
    ensures var u := ValidateUser(users, form, verify).value;
      Authenticate(users, Some(Login(users, form, verify, encode, now).value.cookie), decode)
        == Ok(UserOut(u.id, u.username, u.fullName))
  {
    var token := encode(LoginClaims(form.username, now));
    LoginCookieRoundTrip(token, true);
    LoginClaimsContents(form.username, now);
  }
}
