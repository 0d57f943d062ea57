/** Shared value types: optional values, results, the errors the services throw,
    and the JavaScript truthiness that the `||` defaults and `if (!x)` guards rely on. */
module Common {

  datatype Option<+T> = None | Some(value: T)

  datatype Result<+T, +E> = Ok(value: T) | Err(error: E)

  datatype Outcome<+E> = Pass | Fail(error: E)

  /** The exceptions the services throw: Nest's UnauthorizedException and
      BadRequestException, and a plain `Error` (including a TypeError). */
  datatype HttpError =
    | Unauthorized(message: string)
    | BadRequest(message: string)
    | Thrown(message: string)

  /** An optional string is truthy in JavaScript when it is defined and not empty. */
  predicate Truthy(s: Option<string>)
  {
    s.Some? && s.value != ""
  }

  /** JavaScript `a || b` over optional strings. */
  function Or(a: Option<string>, b: Option<string>): (r: Option<string>)
    ensures Truthy(a) ==> r == a
    ensures !Truthy(a) ==> r == b
  {
    if Truthy(a) then a else b
  }

  /** JavaScript `a || "default"`. */
  function OrElse(a: Option<string>, default: string): (r: string)
    ensures Truthy(a) ==> r == a.value
    ensures !Truthy(a) ==> r == default
  {
    if Truthy(a) then a.value else default
  }

  /** String.prototype.startsWith, which compares characters exactly (case-sensitive). */
  predicate StartsWith(s: string, prefix: string)
  {
    |prefix| <= |s| && s[..|prefix|] == prefix
  }

  /** An environment: what `process.env` holds, every value a string. */
  type Env = map<string, string>

  /** `configService.get(key)`: the value, or undefined when the key is unset. */
  function Get(env: Env, key: string): (r: Option<string>)
    ensures r.Some? <==> key in env
    ensures r.Some? ==> r.value == env[key]
  {
    if key in env then Some(env[key]) else None
  }

  /** The environment with `key` set to `value`. */
  function With(env: Env, key: string, value: string): Env
  {
    env[key := value]
  }
}
