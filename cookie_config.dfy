/** The cookie policy of the auth service: the two cookie names, the options every
    token cookie is written with (RFC 6265 sections 4.1.2.2, 4.1.2.5 and 4.1.2.6),
    and the parser that turns a token lifetime such as "15m" into seconds. */
module CookieConfig {
  import opened Decimal

  const AccessTokenCookie: string := "access_token"
  const RefreshTokenCookie: string := "refresh_token"

  /** What a failed match (or an unknown unit) falls back to: one day, in seconds. */
  const DefaultTtlSeconds: nat := 86400

  datatype SameSite = Strict | Lax

  /** Express cookie options; `maxAge` is in milliseconds, as Express takes it. */
  datatype CookieOptions = CookieOptions(
    httpOnly: bool,
    secure: bool,
    sameSite: SameSite,
    maxAge: nat,
    path: string)

  /** The Max-Age attribute Express writes, in seconds (section 4.1.2.2 of RFC 6265). */
  function MaxAgeSeconds(o: CookieOptions): nat
  {
    o.maxAge / 1000
  }

  /** Options for a token cookie that lives `expiresIn` seconds. */
  function CreateCookieOptions(isProduction: bool, expiresIn: nat): (o: CookieOptions)
    ensures o.httpOnly && o.path == "/"
    ensures o.secure <==> isProduction
    ensures o.sameSite == Strict <==> isProduction
    ensures o.sameSite == Lax <==> !isProduction
    ensures o.maxAge == expiresIn * 1000 && MaxAgeSeconds(o) == expiresIn
  {
    CookieOptions(
      httpOnly := true,
      secure := isProduction,
      sameSite := if isProduction then Strict else Lax,
      maxAge := expiresIn * 1000,
      path := "/")
  }

  predicate IsUnit(c: char)
  {
    c == 's' || c == 'm' || c == 'h' || c == 'd'
  }

  /** The whole string matches the anchored pattern ^(\d+)([smhd])$
      (`\d` is an ASCII digit; `$` is the very end of the string). */
  predicate MatchesTtl(s: string)
  {
    |s| >= 2 && AllDigits(s[..|s| - 1]) && IsUnit(s[|s| - 1])
  }

  /** Reference table: seconds per unit. */
  function UnitSeconds(u: char): nat
    requires IsUnit(u)
  {
    match u
    case 's' => 1
    case 'm' => 60
    case 'h' => 3600
    case 'd' => 86400
  }

  /** A token lifetime string in seconds; anything that does not wholly match falls back. */
  function ParseJwtExpiresIn(expiresIn: string): (seconds: nat)
    ensures !MatchesTtl(expiresIn) ==> seconds == DefaultTtlSeconds
    ensures MatchesTtl(expiresIn) ==>
      seconds == Value(expiresIn[..|expiresIn| - 1]) * UnitSeconds(expiresIn[|expiresIn| - 1])
  {
    if !MatchesTtl(expiresIn) then DefaultTtlSeconds
    else
      var value := Value(expiresIn[..|expiresIn| - 1]);
      var unit := expiresIn[|expiresIn| - 1];
      if unit == 's' then value
      else if unit == 'm' then value * 60
      else if unit == 'h' then value * 60 * 60
      else if unit == 'd' then value * 24 * 60 * 60
      else DefaultTtlSeconds
  }

  /** "<N>s", "<N>m", "<N>h", "<N>d" mean N, 60 N, 3600 N and 86400 N seconds. */
  lemma ParseWithUnit(digits: string, u: char)
    requires |digits| > 0 && AllDigits(digits) && IsUnit(u)
    ensures MatchesTtl(digits + [u])
    ensures ParseJwtExpiresIn(digits + [u]) == Value(digits) * UnitSeconds(u)
  {
    assert (digits + [u])[..|digits|] == digits;
  }

  /** Every string that is not digits followed by one unit letter gives one day. */
  lemma ParseFallback(s: string)
    requires !MatchesTtl(s)
    ensures ParseJwtExpiresIn(s) == DefaultTtlSeconds
  {
  }

  /** Rendering a number and a unit and parsing it back gives the number of seconds. */
  lemma ParseRendered(n: nat, u: char)
    requires IsUnit(u)
    ensures ParseJwtExpiresIn(Digits(n) + [u]) == n * UnitSeconds(u)
  {
    ParseWithUnit(Digits(n), u);
    ValueOfDigits(n);
  }

  /** For a fixed unit the result grows with the numeric prefix. */
  lemma ParseMonotone(d1: string, d2: string, u: char)
    requires |d1| > 0 && AllDigits(d1) && |d2| > 0 && AllDigits(d2) && IsUnit(u)
    requires Value(d1) <= Value(d2)
    ensures ParseJwtExpiresIn(d1 + [u]) <= ParseJwtExpiresIn(d2 + [u])
  {
    ParseWithUnit(d1, u);
    ParseWithUnit(d2, u);
  }

  /** Leading zeros are ignored: "015m" and "15m" give the same lifetime. */
  lemma ParseIgnoresLeadingZero(digits: string, u: char)
    requires |digits| > 0 && AllDigits(digits) && IsUnit(u)
    ensures ParseJwtExpiresIn("0" + digits + [u]) == ParseJwtExpiresIn(digits + [u])
  {
    LeadingZero(digits);
    ParseWithUnit("0" + digits, u);
    ParseWithUnit(digits, u);
  }

  /** Strings that almost match: no unit, an unknown unit, a leading space, an
      upper-case unit, a decimal point, or nothing at all. */
  lemma NearMissesFallBack()
    ensures ParseJwtExpiresIn("") == DefaultTtlSeconds
    ensures ParseJwtExpiresIn("15") == DefaultTtlSeconds
    ensures ParseJwtExpiresIn("1w") == DefaultTtlSeconds
    ensures ParseJwtExpiresIn(" 15m") == DefaultTtlSeconds
    ensures ParseJwtExpiresIn("15M") == DefaultTtlSeconds
    ensures ParseJwtExpiresIn("1.5h") == DefaultTtlSeconds
  {
    assert !IsDigit(" 15m"[0]);
    assert " 15m"[..3][0] == ' ';
    assert "1.5h"[..3][1] == '.';
  }

  /** The usual configured lifetimes. */
  lemma CommonLifetimes()
    ensures ParseJwtExpiresIn("15m") == 900
    ensures ParseJwtExpiresIn("7d") == 604800
    ensures ParseJwtExpiresIn("1h") == 3600
  {
    assert "15"[..1] == "1";
    assert Value("1") == 1;
    assert Value("15") == 15;
    assert "15" + ['m'] == "15m";
    ParseWithUnit("15", 'm');
    ParseWithUnit("7", 'd');
    ParseWithUnit("1", 'h');
  }

  /** The two cookie names are distinct. */
  lemma CookieNamesDistinct()
    ensures AccessTokenCookie == "access_token" && RefreshTokenCookie == "refresh_token"
    ensures AccessTokenCookie != RefreshTokenCookie
  {
  }
}
