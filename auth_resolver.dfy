/** The GraphQL resolver in front of the session issuer: it forwards login and
    logout, and picks the refresh token from the cookie before the mutation input. */
module AuthResolver {
  import opened Common
  import opened CookieConfig
  import opened Users
  import opened Http
  import AuthService

  datatype LoginInput = LoginInput(email: string, password: string)
  datatype RefreshTokenInput = RefreshTokenInput(refreshToken: Option<string>)

  /** The GraphQL context: the Express request (possibly missing) and response. */
  datatype GqlContext = GqlContext(req: Option<Request>, res: Response?)

  const RefreshTokenRequired: HttpError := Thrown("Refresh token is required")
  /** What reading `context.res` throws when the context is undefined. */
  const NoContext: HttpError := Thrown("TypeError: Cannot read properties of undefined (reading 'res')")

  /** `context?.req?.cookies?.[REFRESH_TOKEN_COOKIE]` */
  function CookieToken(context: Option<GqlContext>): Option<string>
  {
    if context.Some? && context.value.req.Some? then CookieValue(context.value.req.value, RefreshTokenCookie) else None
  }

  /** `refreshTokenInput?.refreshToken` */
  function InputToken(input: Option<RefreshTokenInput>): Option<string>
  {
    if input.Some? then input.value.refreshToken else None
  }

  /** `tokenFromCookie || tokenFromInput`: a non-empty cookie wins; an empty or absent
      one falls through to the input, whatever that holds. */
  function ExtractRefreshToken(context: Option<GqlContext>, input: Option<RefreshTokenInput>): (token: Option<string>)
    ensures Truthy(CookieToken(context)) ==> token == CookieToken(context)
    ensures !Truthy(CookieToken(context)) ==> token == InputToken(input)
    ensures Truthy(token) ==> token == CookieToken(context) || token == InputToken(input)
  {
    Or(CookieToken(context), InputToken(input))
  }

  /** The response the resolver hands on, when there is a context. */
  function ResponseOf(context: Option<GqlContext>): Response?
  {
    if context.Some? then context.value.res else null
  }

  /** `login(input, context)` forwards email, password and `context.res`. */
  method Login(users: UserService, compare: (string, string) -> bool, cfg: AuthService.Settings, now: nat,
               input: LoginInput, context: GqlContext)
    returns (r: Result<AuthService.AuthResult, HttpError>)
    modifies context.res
    ensures r == AuthService.LoginOutcome(users.rows, compare, cfg, now, input.email, input.password)
    ensures context.res != null && r.Ok? ==>
      context.res.cookies == old(context.res.cookies) + AuthService.TokenCookies(cfg, r.value.accessToken, r.value.refreshToken)
    ensures context.res != null && r.Err? ==> context.res.cookies == old(context.res.cookies)
  {
    r := AuthService.Login(users, compare, cfg, now, input.email, input.password, context.res);
  }

  /** `refreshToken(input?, context?)`: a missing token is refused before the service
      is called; otherwise the service decides, writing to `context.res`. */
  method RefreshToken(users: UserService, cfg: AuthService.Settings, now: nat,
                      input: Option<RefreshTokenInput>, context: Option<GqlContext>)
    returns (r: Result<AuthService.RefreshTokenResult, HttpError>)
    modifies ResponseOf(context)
    ensures !Truthy(ExtractRefreshToken(context, input)) ==>
      r == Err(RefreshTokenRequired) && (ResponseOf(context) != null ==> ResponseOf(context).cookies == old(ResponseOf(context).cookies))
    ensures Truthy(ExtractRefreshToken(context, input)) && context.None? ==> r == Err(NoContext)
    ensures Truthy(ExtractRefreshToken(context, input)) && context.Some? ==>
      var outcome := AuthService.RefreshOutcome(users.rows, cfg, now, ExtractRefreshToken(context, input).value);
      var res := ResponseOf(context);
      && (outcome.Ok? ==> r == Ok(AuthService.RefreshTokenResult(outcome.value.accessToken)))
      && (outcome.Err? ==> r == Err(AuthService.InvalidRefreshToken))
      && (res != null && outcome.Ok? ==>
            res.cookies == old(res.cookies) + AuthService.TokenCookies(cfg, outcome.value.accessToken, outcome.value.refreshToken))
      && (res != null && outcome.Err? ==> res.cookies == old(res.cookies))
  {
    var token := ExtractRefreshToken(context, input);
    if !Truthy(token) {
      return Err(RefreshTokenRequired);
    }
    if context.None? {
      return Err(NoContext);
    }
    r := AuthService.RefreshToken(users, cfg, now, token.value, context.value.res);
  }

  /** `logout(context)` forwards `context.res`. */
  method Logout(context: GqlContext) returns (r: AuthService.LogoutResult)
    modifies context.res
    ensures r == AuthService.LoggedOut
    ensures context.res != null ==> context.res.cookies == old(context.res.cookies) + AuthService.ClearedCookies()
  {
    r := AuthService.Logout(context.res);
  }

  /** With both a cookie and an input token, the cookie's token is the one used. */
  lemma CookieBeatsInput(res: Response?)
    ensures var context := Some(GqlContext(Some(Request(Some(map[RefreshTokenCookie := "cookie-token"]), None)), res));
      ExtractRefreshToken(context, Some(RefreshTokenInput(Some("input-token")))) == Some("cookie-token")
  {
  }

  /** An empty cookie is falsy, so the input token is used. */
  lemma EmptyCookieFallsThrough(res: Response?, t: string)
    ensures var context := Some(GqlContext(Some(Request(Some(map[RefreshTokenCookie := ""]), None)), res));
      ExtractRefreshToken(context, Some(RefreshTokenInput(Some(t)))) == Some(t)
  {
  }

  /** An empty cookie jar and no input leaves no token. */
  lemma NoTokenAnywhere(res: Response?)
    ensures !Truthy(ExtractRefreshToken(Some(GqlContext(Some(Request(Some(map[]), None)), res)), None))
  {
  }
}
