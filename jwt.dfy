/** An idealised JSON Web Token codec, standing in for the signing library.
    A token is a string that encodes its claims and the key that signed it;
    verification decodes it, checks the signer against the key it is told to use,
    and rejects a token whose expiry time has been reached. */
module Jwt {
  import opened Common
  import opened Decimal

  /** The claims the services sign: `{sub: user.id, email: user.email}`. */
  datatype Payload = Payload(sub: string, email: string)

  /** A signed token: the payload, issued-at and expiry times (seconds), and the signing key. */
  datatype Token = Token(payload: Payload, iat: nat, exp: nat, signer: string)

  /** Why a token is rejected; the services collapse all three into one error. */
  datatype VerifyError = Malformed | InvalidSignature | Expired

  /** One string field: each character prefixed by '1', the whole ended by '0'. */
  function Field(s: string): string
  {
    if s == [] then "0" else ['1', s[0]] + Field(s[1..])
  }

  /** Reads one field from the front of `s`, returning it and what follows. */
  function ReadField(s: string): Option<(string, string)>
    decreases |s|
  {
    if |s| == 0 then None
    else if s[0] == '0' then Some(([], s[1..]))
    else if s[0] == '1' && |s| >= 2 then
      match ReadField(s[2..])
      case None => None
      case Some((v, rest)) => Some(([s[1]] + v, rest))
    else None
  }

  lemma {:induction false} ReadFieldOfField(v: string, rest: string)
    ensures ReadField(Field(v) + rest) == Some((v, rest))
  {
    if v == [] {
      assert Field(v) + rest == "0" + rest;
      assert ("0" + rest)[1..] == rest;
    } else {
      var s := Field(v) + rest;
      assert s == ['1', v[0]] + (Field(v[1..]) + rest);
      assert s[2..] == Field(v[1..]) + rest;
      ReadFieldOfField(v[1..], rest);
      assert [v[0]] + v[1..] == v;
    }
  }

  /** Several fields one after another. */
  function EncodeFields(fields: seq<string>): string
  {
    if fields == [] then [] else Field(fields[0]) + EncodeFields(fields[1..])
  }

  /** Reads `n` fields from the front of `s`, returning them and what follows. */
  function ReadFields(s: string, n: nat): Option<(seq<string>, string)>
    decreases n
  {
    if n == 0 then Some(([], s))
    else
      match ReadField(s)
      case None => None
      case Some((v, r)) =>
        match ReadFields(r, n - 1)
        case None => None
        case Some((vs, rest)) => Some(([v] + vs, rest))
  }

  lemma {:induction false} ReadFieldsOfFields(fields: seq<string>, rest: string)
    ensures ReadFields(EncodeFields(fields) + rest, |fields|) == Some((fields, rest))
  {
    if fields == [] {
      assert EncodeFields(fields) + rest == rest;
    } else {
      var tail := EncodeFields(fields[1..]) + rest;
      assert EncodeFields(fields) + rest == Field(fields[0]) + tail;
      ReadFieldOfField(fields[0], tail);
      ReadFieldsOfFields(fields[1..], rest);
      assert [fields[0]] + fields[1..] == fields;
    }
  }

  function ReadNumber(s: string): Option<nat>
  {
    if |s| > 0 && AllDigits(s) then Some(Value(s)) else None
  }

  function Fields(t: Token): (fields: seq<string>)
    ensures |fields| == 5
  {
    [t.payload.sub, t.payload.email, Digits(t.iat), Digits(t.exp), t.signer]
  }

  /** The string form of a token. */
  function Encode(t: Token): string
  {
    EncodeFields(Fields(t))
  }

  /** Parses a token string; None for anything that is not the form of some token. */
  function Decode(s: string): Option<Token>
  {
    match ReadFields(s, 5)
    case None => None
    case Some((fields, rest)) =>
      if rest != [] || |fields| != 5 then None
      else
        match (ReadNumber(fields[2]), ReadNumber(fields[3]))
        case (Some(iat), Some(exp)) => Some(Token(Payload(fields[0], fields[1]), iat, exp, fields[4]))
        case _ => None
  }

  /** Every token's string form decodes to that token. */
  lemma DecodeEncode(t: Token)
    ensures Decode(Encode(t)) == Some(t)
  {
    ReadFieldsOfFields(Fields(t), []);
    assert Encode(t) + [] == Encode(t);
    ValueOfDigits(t.iat);
    ValueOfDigits(t.exp);
  }

  /** `sign(payload, {secret, expiresIn})` at time `now`: a token that expires `ttl` seconds later. */
  function Sign(payload: Payload, secret: string, ttl: nat, now: nat): (token: string)
    ensures Decode(token) == Some(Token(payload, now, now + ttl, secret))
  {
    var t := Token(payload, now, now + ttl, secret);
    DecodeEncode(t);
    Encode(t)
  }

  /** `verify(token, {secret})` at time `now`, expiry enforced. */
  function Verify(token: string, secret: string, now: nat): (r: Result<Payload, VerifyError>)
    ensures r.Ok? <==> Decode(token).Some? && Decode(token).value.signer == secret && now < Decode(token).value.exp
    ensures r.Ok? ==> r.value == Decode(token).value.payload
  {
    match Decode(token)
    case None => Err(Malformed)
    case Some(t) =>
      if t.signer != secret then Err(InvalidSignature)
      else if now >= t.exp then Err(Expired)
      else Ok(t.payload)
  }

  /** A signed token verifies under its own key until it expires, and never under another key. */
  lemma VerifySigned(payload: Payload, secret: string, ttl: nat, now: nat, key: string, at: nat)
    ensures Verify(Sign(payload, secret, ttl, now), key, at) ==
      if key != secret then Err(InvalidSignature)
      else if at >= now + ttl then Err(Expired)
      else Ok(payload)
  {
  }

  /** Strings that are not the form of any token are rejected whatever the key. */
  lemma MalformedRejected(key: string, at: nat)
    ensures Verify("", key, at) == Err(Malformed)
    ensures Verify("invalid-token", key, at) == Err(Malformed)
  {
  }
}
