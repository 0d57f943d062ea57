/** The remote verification endpoint other services call: verify the token with the
    access secret, re-read the subject from the store, return only its id and email. */
module GrpcController {
  import opened Common
  import opened Jwt
  import opened Users

  /** The one error every failure becomes. */
  const InvalidToken: HttpError := Thrown("Invalid token")

  /** `authenticate({token})` */
  function Authenticate(rows: seq<User>, jwtSecret: string, now: nat, token: string): (r: Result<Identity, HttpError>)
    ensures r.Ok? <==> Verify(token, jwtSecret, now).Ok? && exists u :: u in rows && u.id == Verify(token, jwtSecret, now).value.sub
    ensures r.Ok? ==> exists u :: u in rows && u.id == Verify(token, jwtSecret, now).value.sub && r.value == IdentityOf(u)
    ensures r.Err? ==> r.error == InvalidToken
  {
    match Verify(token, jwtSecret, now)
    case Err(_) => Err(InvalidToken)
    case Ok(payload) =>
      match FindOne(rows, payload.sub)
      case None => Err(InvalidToken)
      case Some(user) => Ok(Identity(user.id, user.email))
  }

  /** An access token issued to a stored user yields exactly that user's id and email until it expires. */
  lemma {:induction false} IssuedTokenAuthenticates(rows: seq<User>, jwtSecret: string, ttl: nat, iat: nat, now: nat, k: nat)
    requires Unique(rows) && k < |rows| && now < iat + ttl
    ensures Authenticate(rows, jwtSecret, now, Sign(Payload(rows[k].id, rows[k].email), jwtSecret, ttl, iat))
      == Ok(Identity(rows[k].id, rows[k].email))
  {
    FindOneFinds(rows, k);
  }

  /** A tampered (differently signed), expired, malformed or orphaned token gives the
      single error and never a partial identity. */
  lemma FailuresCollapse(rows: seq<User>, jwtSecret: string, key: string, payload: Payload, ttl: nat, iat: nat, now: nat)
    ensures key != jwtSecret ==> Authenticate(rows, jwtSecret, now, Sign(payload, key, ttl, iat)) == Err(InvalidToken)
    ensures now >= iat + ttl ==> Authenticate(rows, jwtSecret, now, Sign(payload, key, ttl, iat)) == Err(InvalidToken)
    ensures Authenticate(rows, jwtSecret, now, "") == Err(InvalidToken)
    ensures (forall u :: u in rows ==> u.id != payload.sub) ==>
      Authenticate(rows, jwtSecret, now, Sign(payload, key, ttl, iat)) == Err(InvalidToken)
  {
  }
}
