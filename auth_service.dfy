/** The session issuer: credential check, token-pair issuance on login and refresh,
    and the cookie writes that carry the tokens to the browser. */
module AuthService {
  import opened Common
  import opened CookieConfig
  import opened Jwt
  import opened Users
  import opened Http

  /** The configuration the service reads. `accessTtl` and `refreshTtl` are the
      lifetimes, in seconds, that the signing library gives `jwtExpiresIn` and
      `jwtRefreshExpiresIn`. */
  datatype Settings = Settings(
    isProduction: bool,
    jwtSecret: string,
    jwtExpiresIn: string,
    jwtRefreshSecret: string,
    jwtRefreshExpiresIn: string,
    accessTtl: nat,
    refreshTtl: nat)

  datatype TokenPair = TokenPair(accessToken: string, refreshToken: string)
  datatype AuthResult = AuthResult(user: User, accessToken: string, refreshToken: string)
  datatype RefreshTokenResult = RefreshTokenResult(accessToken: string)
  datatype LogoutResult = LogoutResult(success: bool, message: string)

  const InvalidCredentials: HttpError := Unauthorized("Invalid credentials")
  const InvalidRefreshToken: HttpError := Unauthorized("Invalid refresh token")
  const LoggedOut: LogoutResult := LogoutResult(true, "Logged out successfully")

  /** `validateUser`: the stored record when the email is known and bcrypt's `compare`
      accepts the password; the same error for an unknown email and a wrong password. */
  function ValidateUser(rows: seq<User>, compare: (string, string) -> bool, email: string, password: string)
    : (r: Result<User, HttpError>)
    ensures r.Ok? ==> r.value in rows && r.value.email == email && compare(password, r.value.password)
    ensures (forall u :: u in rows ==> u.email != email) ==> r == Err(InvalidCredentials)
    ensures r.Err? ==> r.error == InvalidCredentials
  {
    match FindByEmail(rows, email)
    case None => Err(InvalidCredentials)
    case Some(user) =>
      if !compare(password, user.password) then Err(InvalidCredentials) else Ok(user)
  }

  /** The claims carry the record's id as subject and its email, never the hash or salt. */
  function CreatePayloadFromUser(user: User): (payload: Payload)
    ensures payload.sub == user.id && payload.email == user.email
  {
    Payload(user.id, user.email)
  }

  /** Both tokens are signed from one payload at one instant: the access token with
      the module default secret and lifetime, the refresh token with the refresh ones. */
  function GenerateTokensForUser(cfg: Settings, now: nat, user: User): (pair: TokenPair)
    ensures Decode(pair.accessToken) == Some(Token(CreatePayloadFromUser(user), now, now + cfg.accessTtl, cfg.jwtSecret))
    ensures Decode(pair.refreshToken) == Some(Token(CreatePayloadFromUser(user), now, now + cfg.refreshTtl, cfg.jwtRefreshSecret))
  {
    var payload := CreatePayloadFromUser(user);
    var accessToken := Sign(payload, cfg.jwtSecret, cfg.accessTtl, now);
    var refreshToken := Sign(payload, cfg.jwtRefreshSecret, cfg.refreshTtl, now);
    assert Decode(accessToken) == Some(Token(payload, now, now + cfg.accessTtl, cfg.jwtSecret));
    assert Decode(refreshToken) == Some(Token(payload, now, now + cfg.refreshTtl, cfg.jwtRefreshSecret));
    TokenPair(accessToken, refreshToken)
  }

  /** What `login` returns: the validated record with a fresh pair whose claims are
      that record's id and the email it logged in with. */
  function LoginOutcome(rows: seq<User>, compare: (string, string) -> bool, cfg: Settings, now: nat,
                        email: string, password: string): (r: Result<AuthResult, HttpError>)
    ensures r.Ok? <==> ValidateUser(rows, compare, email, password).Ok?
    ensures r.Err? ==> r.error == InvalidCredentials
    ensures r.Ok? ==> r.value.user in rows && r.value.user.email == email && compare(password, r.value.user.password)
    ensures r.Ok? ==>
      Decode(r.value.accessToken) == Some(Token(Payload(r.value.user.id, email), now, now + cfg.accessTtl, cfg.jwtSecret))
    ensures r.Ok? ==>
      Decode(r.value.refreshToken) == Some(Token(Payload(r.value.user.id, email), now, now + cfg.refreshTtl, cfg.jwtRefreshSecret))
  {
    match ValidateUser(rows, compare, email, password)
    case Err(e) => Err(e)
    case Ok(user) =>
      var pair := GenerateTokensForUser(cfg, now, user);
      Ok(AuthResult(user, pair.accessToken, pair.refreshToken))
  }

  /** The token pair `refreshToken` issues; every failure is "Invalid refresh token".
      The new pair is issued for the stored record the token's subject names, so its
      claims are re-read from the store rather than copied from the old token. */
  function RefreshOutcome(rows: seq<User>, cfg: Settings, now: nat, token: string): (r: Result<TokenPair, HttpError>)
    ensures r.Err? ==> r.error == InvalidRefreshToken
    ensures r.Ok? <==>
      Verify(token, cfg.jwtRefreshSecret, now).Ok?
      && exists u :: u in rows && u.id == Verify(token, cfg.jwtRefreshSecret, now).value.sub
    ensures r.Ok? ==>
      exists u :: u in rows && u.id == Verify(token, cfg.jwtRefreshSecret, now).value.sub
                  && r.value == GenerateTokensForUser(cfg, now, u)
  {
    match Verify(token, cfg.jwtRefreshSecret, now)
    case Err(_) => Err(InvalidRefreshToken)
    case Ok(payload) =>
      match FindOne(rows, payload.sub)
      case None => Err(InvalidRefreshToken)
      case Some(user) => Ok(GenerateTokensForUser(cfg, now, user))
  }

  /** The cookies `setTokenCookies` writes. */
  function TokenCookies(cfg: Settings, accessToken: string, refreshToken: string): (jar: map<string, CookieEntry>)
    ensures jar.Keys == {AccessTokenCookie, RefreshTokenCookie}
    ensures jar[AccessTokenCookie] == Set(accessToken, CreateCookieOptions(cfg.isProduction, ParseJwtExpiresIn(cfg.jwtExpiresIn)))
    ensures jar[RefreshTokenCookie] == Set(refreshToken, CreateCookieOptions(cfg.isProduction, ParseJwtExpiresIn(cfg.jwtRefreshExpiresIn)))
  {
    map[AccessTokenCookie := Set(accessToken, CreateCookieOptions(cfg.isProduction, ParseJwtExpiresIn(cfg.jwtExpiresIn))),
        RefreshTokenCookie := Set(refreshToken, CreateCookieOptions(cfg.isProduction, ParseJwtExpiresIn(cfg.jwtRefreshExpiresIn)))]
  }

  /** The cookies `clearTokenCookies` writes. */
  function ClearedCookies(): (jar: map<string, CookieEntry>)
    ensures jar.Keys == {AccessTokenCookie, RefreshTokenCookie}
    ensures forall name :: name in jar ==> jar[name] == Cleared("/")
  {
    map[AccessTokenCookie := Cleared("/"), RefreshTokenCookie := Cleared("/")]
  }

  method SetTokenCookies(response: Response, cfg: Settings, accessToken: string, refreshToken: string)
    modifies response
    ensures response.cookies == old(response.cookies) + TokenCookies(cfg, accessToken, refreshToken)
  {
    var isProduction := cfg.isProduction;
    var accessTokenExpires := ParseJwtExpiresIn(cfg.jwtExpiresIn);
    var refreshTokenExpires := ParseJwtExpiresIn(cfg.jwtRefreshExpiresIn);
    response.Cookie(AccessTokenCookie, accessToken, CreateCookieOptions(isProduction, accessTokenExpires));
    response.Cookie(RefreshTokenCookie, refreshToken, CreateCookieOptions(isProduction, refreshTokenExpires));
  }

  method ClearTokenCookies(response: Response)
    modifies response
    ensures response.cookies == old(response.cookies) + ClearedCookies()
  {
    response.ClearCookie(AccessTokenCookie, "/");
    response.ClearCookie(RefreshTokenCookie, "/");
  }

  /** `login(email, password, response?)` */
  method Login(users: UserService, compare: (string, string) -> bool, cfg: Settings, now: nat,
               email: string, password: string, response: Response?)
    returns (r: Result<AuthResult, HttpError>)
    modifies response
    ensures r == LoginOutcome(users.rows, compare, cfg, now, email, password)
    ensures response != null && r.Ok? ==>
      response.cookies == old(response.cookies) + TokenCookies(cfg, r.value.accessToken, r.value.refreshToken)
    ensures response != null && r.Err? ==> response.cookies == old(response.cookies)
  {
    var validated := ValidateUser(users.rows, compare, email, password);
    if validated.Err? {
      return Err(validated.error);
    }
    var user := validated.value;
    var tokens := GenerateTokensForUser(cfg, now, user);
    if response != null {
      SetTokenCookies(response, cfg, tokens.accessToken, tokens.refreshToken);
    }
    r := Ok(AuthResult(user, tokens.accessToken, tokens.refreshToken));
  }

  /** `refreshToken(token, response?)`: only the access token is returned, although
      both fresh tokens are written to the cookies. */
  method RefreshToken(users: UserService, cfg: Settings, now: nat, token: string, response: Response?)
    returns (r: Result<RefreshTokenResult, HttpError>)
    modifies response
    ensures RefreshOutcome(users.rows, cfg, now, token).Err? ==>
      r == Err(InvalidRefreshToken) && (response != null ==> response.cookies == old(response.cookies))
    ensures RefreshOutcome(users.rows, cfg, now, token).Ok? ==>
      var pair := RefreshOutcome(users.rows, cfg, now, token).value;
      && r == Ok(RefreshTokenResult(pair.accessToken))
      && (response != null ==>
            response.cookies == old(response.cookies) + TokenCookies(cfg, pair.accessToken, pair.refreshToken))
  {
    var verified := Verify(token, cfg.jwtRefreshSecret, now);
    if verified.Err? {
      return Err(InvalidRefreshToken);
    }
    var user := FindOne(users.rows, verified.value.sub);
    if user.None? {
      return Err(InvalidRefreshToken);
    }
    var tokens := GenerateTokensForUser(cfg, now, user.value);
    if response != null {
      SetTokenCookies(response, cfg, tokens.accessToken, tokens.refreshToken);
    }
    r := Ok(RefreshTokenResult(tokens.accessToken));
  }

  /** `logout(response?)` never fails; it only clears the two cookies. */
  method Logout(response: Response?) returns (r: LogoutResult)
    modifies response
    ensures r == LoggedOut && r.success
    ensures response != null ==> response.cookies == old(response.cookies) + ClearedCookies()
  {
    if response != null {
      ClearTokenCookies(response);
    }
    r := LoggedOut;
  }

  // ---------------------------------------------------------------------------
  // Properties of the session specification

  /** A known email with a password bcrypt accepts logs in as exactly that record. */
  lemma ValidateUserAccepts(rows: seq<User>, compare: (string, string) -> bool, k: nat, password: string)
    requires Unique(rows) && k < |rows| && compare(password, rows[k].password)
    ensures ValidateUser(rows, compare, rows[k].email, password) == Ok(rows[k])
  {
    FindByEmailFinds(rows, k);
  }

  /** A wrong password gives the same error as an unknown email. */
  lemma ValidateUserRejects(rows: seq<User>, compare: (string, string) -> bool, k: nat, password: string)
    requires Unique(rows) && k < |rows| && !compare(password, rows[k].password)
    ensures ValidateUser(rows, compare, rows[k].email, password) == Err(InvalidCredentials)
  {
    FindByEmailFinds(rows, k);
  }

  /** For an unknown email the password is never compared: the outcome does not
      depend on the comparison function. */
  lemma UnknownEmailSkipsCompare(rows: seq<User>, c1: (string, string) -> bool, c2: (string, string) -> bool,
                                 email: string, password: string)
    requires forall u :: u in rows ==> u.email != email
    ensures ValidateUser(rows, c1, email, password) == ValidateUser(rows, c2, email, password) == Err(InvalidCredentials)
  {
  }

  /** A successful login returns a pair for the validated user: the access token
      verifies to the user's claims under the access secret until it expires, the
      refresh token under the refresh secret; with distinct secrets neither token
      passes as the other class. */
  lemma LoginTokensVerify(rows: seq<User>, compare: (string, string) -> bool, cfg: Settings, now: nat,
                          email: string, password: string, at: nat)
    requires LoginOutcome(rows, compare, cfg, now, email, password).Ok?
    ensures var res := LoginOutcome(rows, compare, cfg, now, email, password).value;
      && res.user in rows && res.user.email == email
      && (at < now + cfg.accessTtl ==> Verify(res.accessToken, cfg.jwtSecret, at) == Ok(Payload(res.user.id, email)))
      && (at < now + cfg.refreshTtl ==> Verify(res.refreshToken, cfg.jwtRefreshSecret, at) == Ok(Payload(res.user.id, email)))
      && (cfg.jwtSecret != cfg.jwtRefreshSecret ==>
            Verify(res.accessToken, cfg.jwtRefreshSecret, at).Err? && Verify(res.refreshToken, cfg.jwtSecret, at).Err?)
  {
  }

  /** `refreshToken` rejects an access token (signed with the access secret) when the
      two secrets differ, however fresh the token. */
  lemma RefreshRejectsAccessToken(rows: seq<User>, cfg: Settings, payload: Payload, iat: nat, now: nat)
    requires cfg.jwtSecret != cfg.jwtRefreshSecret
    ensures RefreshOutcome(rows, cfg, now, Sign(payload, cfg.jwtSecret, cfg.accessTtl, iat)) == Err(InvalidRefreshToken)
  {
  }

  /** When verification fails the store is not consulted: the outcome is the same for every store. */
  lemma RefreshFailureIgnoresStore(rows1: seq<User>, rows2: seq<User>, cfg: Settings, now: nat, token: string)
    requires Verify(token, cfg.jwtRefreshSecret, now).Err?
    ensures RefreshOutcome(rows1, cfg, now, token) == RefreshOutcome(rows2, cfg, now, token) == Err(InvalidRefreshToken)
  {
  }

  /** A refresh token whose subject is no longer stored is rejected with the same error. */
  lemma RefreshRejectsMissingUser(rows: seq<User>, cfg: Settings, payload: Payload, iat: nat, now: nat)
    requires now < iat + cfg.refreshTtl
    requires forall u :: u in rows ==> u.id != payload.sub
    ensures RefreshOutcome(rows, cfg, now, Sign(payload, cfg.jwtRefreshSecret, cfg.refreshTtl, iat)) == Err(InvalidRefreshToken)
  {
  }

  /** Refreshing with the refresh token of a login, before it expires, yields a new
      access token for the same subject, re-read from the store. */
  lemma {:induction false} RefreshAfterLogin(rows: seq<User>, compare: (string, string) -> bool, cfg: Settings,
                                             now: nat, email: string, password: string, later: nat, at: nat)
    requires Unique(rows)
    requires LoginOutcome(rows, compare, cfg, now, email, password).Ok?
    requires now <= later < now + cfg.refreshTtl
    requires later <= at < later + cfg.accessTtl
    ensures var user := LoginOutcome(rows, compare, cfg, now, email, password).value.user;
      var refreshed := RefreshOutcome(rows, cfg, later, LoginOutcome(rows, compare, cfg, now, email, password).value.refreshToken);
      && refreshed.Ok?
      && Verify(refreshed.value.accessToken, cfg.jwtSecret, at) == Ok(Payload(user.id, user.email))
  {
    var res := LoginOutcome(rows, compare, cfg, now, email, password).value;
    var k :| 0 <= k < |rows| && rows[k] == res.user;
    FindOneFinds(rows, k);
  }

  /** Two logins of different users never mix their claims. */
  lemma LoginsIndependent(rows: seq<User>, compare: (string, string) -> bool, cfg: Settings, now: nat,
                          e1: string, p1: string, e2: string, p2: string, at: nat)
    requires Unique(rows) && e1 != e2
    requires LoginOutcome(rows, compare, cfg, now, e1, p1).Ok? && LoginOutcome(rows, compare, cfg, now, e2, p2).Ok?
    requires at < now + cfg.accessTtl
    ensures var a := LoginOutcome(rows, compare, cfg, now, e1, p1).value;
      var b := LoginOutcome(rows, compare, cfg, now, e2, p2).value;
      && a.user.id != b.user.id
      && Verify(a.accessToken, cfg.jwtSecret, at) == Ok(Payload(a.user.id, e1))
      && Verify(b.accessToken, cfg.jwtSecret, at) == Ok(Payload(b.user.id, e2))
  {
    LoginTokensVerify(rows, compare, cfg, now, e1, p1, at);
    LoginTokensVerify(rows, compare, cfg, now, e2, p2, at);
    var a := LoginOutcome(rows, compare, cfg, now, e1, p1).value;
    var b := LoginOutcome(rows, compare, cfg, now, e2, p2).value;
    var i :| 0 <= i < |rows| && rows[i] == a.user;
    var j :| 0 <= j < |rows| && rows[j] == b.user;
  }

  /** Both token cookies are HttpOnly and scoped to "/", and Secure with SameSite=Strict
      exactly in production; each lives as long as its configured lifetime string says. */
  lemma TokenCookiePolicy(cfg: Settings, accessToken: string, refreshToken: string, name: string)
    requires name in TokenCookies(cfg, accessToken, refreshToken)
    ensures var o := TokenCookies(cfg, accessToken, refreshToken)[name].options;
      && o.httpOnly && o.path == "/"
      && (o.secure <==> cfg.isProduction) && (o.sameSite == Strict <==> cfg.isProduction)
      && MaxAgeSeconds(o) == ParseJwtExpiresIn(if name == AccessTokenCookie then cfg.jwtExpiresIn else cfg.jwtRefreshExpiresIn)
  {
  }
}
