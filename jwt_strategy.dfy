/** The auth service's own request authentication (the Passport "jwt" strategy):
    token from a non-empty access-token cookie, else from the Bearer header; verified
    with the access secret, expiry enforced; then the subject is re-read from the store. */
module JwtStrategy {
  import opened Common
  import opened CookieConfig
  import opened Jwt
  import opened Users
  import opened Http

  const InvalidToken: HttpError := Unauthorized("Invalid token")

  /** Why the strategy refuses a request; each is answered with 401. */
  datatype StrategyError = NoToken | Rejected(cause: VerifyError) | ValidateFailed(error: HttpError)

  /** `extractJwtFromCookieOrAuthHeader`. `fromAuthHeader` is the library's Bearer-header
      parser, applied to the Authorization header when there is one. */
  function ExtractJwtFromCookieOrAuthHeader(req: Request, fromAuthHeader: string -> Option<string>): (token: Option<string>)
    ensures Truthy(CookieValue(req, AccessTokenCookie)) ==> token == CookieValue(req, AccessTokenCookie)
    ensures !Truthy(CookieValue(req, AccessTokenCookie)) && req.authorization.Some? ==> token == fromAuthHeader(req.authorization.value)
    ensures !Truthy(CookieValue(req, AccessTokenCookie)) && req.authorization.None? ==> token == None
  {
    if req.cookies.Some? && Truthy(CookieValue(req, AccessTokenCookie)) then CookieValue(req, AccessTokenCookie)
    else if req.authorization.Some? then fromAuthHeader(req.authorization.value)
    else None
  }

  /** `validate(payload)`: the stored user for the subject, not the payload itself. */
  function Validate(rows: seq<User>, payload: Payload): (r: Result<User, HttpError>)
    ensures r.Ok? ==> r.value in rows && r.value.id == payload.sub
    ensures r.Err? <==> forall u :: u in rows ==> u.id != payload.sub
    ensures r.Err? ==> r.error == InvalidToken
  {
    match FindOne(rows, payload.sub)
    case None => Err(InvalidToken)
    case Some(user) => Ok(user)
  }

  /** The strategy as configured: extractor, `secretOrKey: jwtSecret`, `ignoreExpiration: false`, then `validate`. */
  function Authenticate(rows: seq<User>, jwtSecret: string, now: nat, req: Request,
                        fromAuthHeader: string -> Option<string>): (r: Result<User, StrategyError>)
    ensures var token := ExtractJwtFromCookieOrAuthHeader(req, fromAuthHeader);
      && (r == Err(NoToken) <==> token.None?)
      && (token.Some? && Verify(token.value, jwtSecret, now).Err? ==>
            r == Err(Rejected(Verify(token.value, jwtSecret, now).error)))
      && (r.Ok? <==>
            && token.Some? && Verify(token.value, jwtSecret, now).Ok?
            && exists u :: u in rows && u.id == Verify(token.value, jwtSecret, now).value.sub)
      && (r.Ok? ==> r.value in rows && r.value.id == Verify(token.value, jwtSecret, now).value.sub)
      && (token.Some? && Verify(token.value, jwtSecret, now).Ok? && r.Err? ==> r == Err(ValidateFailed(InvalidToken)))
  {
    match ExtractJwtFromCookieOrAuthHeader(req, fromAuthHeader)
    case None => Err(NoToken)
    case Some(token) =>
      match Verify(token, jwtSecret, now)
      case Err(cause) => Err(Rejected(cause))
      case Ok(payload) =>
        match Validate(rows, payload)
        case Err(e) => Err(ValidateFailed(e))
        case Ok(user) => Ok(user)
  }

  /** An access token issued to a stored user, presented in the cookie, authenticates
      that user until it expires, whatever the header carries. */
  lemma {:induction false} CookieTokenAuthenticates(rows: seq<User>, jwtSecret: string, ttl: nat, iat: nat, now: nat,
                                                    k: nat, header: Option<string>, fromAuthHeader: string -> Option<string>)
    requires Unique(rows) && k < |rows| && now < iat + ttl
    ensures var token := Sign(Payload(rows[k].id, rows[k].email), jwtSecret, ttl, iat);
      Authenticate(rows, jwtSecret, now, Request(Some(map[AccessTokenCookie := token]), header), fromAuthHeader) == Ok(rows[k])
  {
    FindOneFinds(rows, k);
  }

  /** A token signed with any other key (such as the refresh secret) is rejected. */
  lemma OtherKeyRejected(rows: seq<User>, jwtSecret: string, key: string, payload: Payload, ttl: nat, iat: nat, now: nat,
                         req: Request, fromAuthHeader: string -> Option<string>)
    requires key != jwtSecret
    requires ExtractJwtFromCookieOrAuthHeader(req, fromAuthHeader) == Some(Sign(payload, key, ttl, iat))
    ensures Authenticate(rows, jwtSecret, now, req, fromAuthHeader) == Err(Rejected(InvalidSignature))
  {
  }

  /** An expired token is rejected even when correctly signed. */
  lemma ExpiredRejected(rows: seq<User>, jwtSecret: string, payload: Payload, ttl: nat, iat: nat, now: nat,
                        req: Request, fromAuthHeader: string -> Option<string>)
    requires now >= iat + ttl
    requires ExtractJwtFromCookieOrAuthHeader(req, fromAuthHeader) == Some(Sign(payload, jwtSecret, ttl, iat))
    ensures Authenticate(rows, jwtSecret, now, req, fromAuthHeader) == Err(Rejected(Expired))
  {
  }
}
