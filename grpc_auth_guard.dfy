/** The guard other services put in front of their handlers: it takes the token from
    the request and asks the auth service's verification endpoint who the caller is. */
module GrpcAuthGuard {
  import opened Common
  import opened CookieConfig
  import opened Users
  import opened Http
  import GrpcController
  import Jwt

  const BearerPrefix: string := "Bearer "
  const TokenMissing: HttpError := Unauthorized("Authentication token is missing")
  const InvalidToken: HttpError := Unauthorized("Invalid token")

  /** `extractToken(req)`: whenever there is a cookie jar, the access-token cookie,
      present or not; only without a jar, the rest of a header that starts exactly with "Bearer ". */
  function ExtractToken(req: Request): (token: Option<string>)
    ensures req.cookies.Some? ==> token == CookieValue(req, AccessTokenCookie)
    ensures req.cookies.None? ==>
      (token.Some? <==> req.authorization.Some? && StartsWith(req.authorization.value, BearerPrefix))
    ensures req.cookies.None? && token.Some? ==> req.authorization == Some(BearerPrefix + token.value)
  {
    if req.cookies.Some? then CookieValue(req, AccessTokenCookie)
    else if req.authorization.Some? && StartsWith(req.authorization.value, BearerPrefix) then
      var header := req.authorization.value;
      assert header == header[..7] + header[7..];
      Some(header[7..])
    else None
  }

  /** The decision `canActivate` makes, given the remote `authenticate` call. */
  function Decide<E>(req: Request, rpc: string -> Result<Identity, E>): (r: Result<Identity, HttpError>)
    ensures !Truthy(ExtractToken(req)) ==> r == Err(TokenMissing)
    ensures Truthy(ExtractToken(req)) ==>
      match rpc(ExtractToken(req).value)
      case Ok(identity) => r == Ok(identity)
      case Err(_) => r == Err(InvalidToken)
  {
    var token := ExtractToken(req);
    if !Truthy(token) then Err(TokenMissing)
    else match rpc(token.value)
      case Err(_) => Err(InvalidToken)
      case Ok(user) => Ok(user)
  }

  /** The request as the guard sees it, with the `user` slot it fills in. */
  class GuardedRequest {
    const request: Request
    var user: Option<Identity>

    constructor (request: Request)
      ensures this.request == request && user == None
    {
      this.request := request;
      user := None;
    }
  }

  /** `canActivate`: `req.user` is set, and true returned, only when the remote call succeeds. */
  method CanActivate<E>(req: GuardedRequest, rpc: string -> Result<Identity, E>) returns (r: Result<bool, HttpError>)
    modifies req
    ensures Decide(req.request, rpc).Ok? ==> r == Ok(true) && req.user == Some(Decide(req.request, rpc).value)
    ensures Decide(req.request, rpc).Err? ==> r == Err(Decide(req.request, rpc).error) && req.user == old(req.user)
  {
    var token := ExtractToken(req.request);
    if !Truthy(token) {
      return Err(TokenMissing);
    }
    var user := rpc(token.value);
    if user.Err? {
      return Err(InvalidToken);
    }
    req.user := Some(user.value);
    r := Ok(true);
  }

  /** With a cookie jar (cookie-parser installed) the Authorization header is never read. */
  lemma JarHidesHeader(jar: map<string, string>, h1: Option<string>, h2: Option<string>)
    ensures ExtractToken(Request(Some(jar), h1)) == ExtractToken(Request(Some(jar), h2))
    ensures AccessTokenCookie !in jar ==> ExtractToken(Request(Some(jar), h1)) == None
  {
  }

  /** The scheme match is case-sensitive: "bearer t" and "BEARER t" yield nothing. */
  lemma SchemeCaseSensitive(t: string)
    ensures ExtractToken(Request(None, Some("Bearer " + t))) == Some(t)
    ensures ExtractToken(Request(None, Some("bearer " + t))) == None
    ensures ExtractToken(Request(None, Some("BEARER " + t))) == None
  {
    assert ("Bearer " + t)[..7] == "Bearer ";
    assert ("Bearer " + t)[7..] == t;
    assert ("bearer " + t)[..7] != "Bearer " by { assert ("bearer " + t)[0] == 'b'; }
    assert ("BEARER " + t)[..7] != "Bearer " by { assert ("BEARER " + t)[1] == 'E'; }
  }

  /** Guard and endpoint together: with cookie-parser installed, an unexpired access
      token in the cookie admits the stored user; a refresh token there (a different
      secret) or an empty jar is refused; the request is never admitted by default. */
  lemma {:induction false} GuardWithEndpoint(rows: seq<User>, jwtSecret: string, refreshSecret: string,
                                             ttl: nat, iat: nat, now: nat, k: nat, header: Option<string>)
    requires Unique(rows) && k < |rows| && now < iat + ttl && jwtSecret != refreshSecret
    ensures var rpc := (t: string) => GrpcController.Authenticate(rows, jwtSecret, now, t);
      var payload := Jwt.Payload(rows[k].id, rows[k].email);
      && Decide(Request(Some(map[AccessTokenCookie := Jwt.Sign(payload, jwtSecret, ttl, iat)]), header), rpc)
           == Ok(IdentityOf(rows[k]))
      && Decide(Request(Some(map[AccessTokenCookie := Jwt.Sign(payload, refreshSecret, ttl, iat)]), header), rpc)
           == Err(InvalidToken)
      && Decide(Request(Some(map[]), header), rpc) == Err(TokenMissing)
  {
    var payload := Jwt.Payload(rows[k].id, rows[k].email);
    GrpcController.IssuedTokenAuthenticates(rows, jwtSecret, ttl, iat, now, k);
    Jwt.DecodeEncode(Jwt.Token(payload, iat, iat + ttl, jwtSecret));
  }
}
