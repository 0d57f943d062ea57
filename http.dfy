/** The parts of an Express request and response that the auth layer touches. */
module Http {
  import opened Common
  import opened CookieConfig

  /** A request as the extractors see it: the parsed cookie jar (present only when
      cookie-parser ran) and the Authorization header. */
  datatype Request = Request(cookies: Option<map<string, string>>, authorization: Option<string>)

  /** `req.cookies[name]`: undefined when there is no jar or no such cookie. */
  function CookieValue(req: Request, name: string): (v: Option<string>)
    ensures v.Some? <==> req.cookies.Some? && name in req.cookies.value
    ensures v.Some? ==> v.value == req.cookies.value[name]
  {
    if req.cookies.Some? then Get(req.cookies.value, name) else None
  }

  /** What the response will tell the browser about one cookie name. */
  datatype CookieEntry =
    | Set(value: string, options: CookieOptions)
    | Cleared(path: string)

  /** An Express response, seen as the cookie jar it writes. */
  class Response {
    var cookies: map<string, CookieEntry>

    constructor ()
      ensures cookies == map[]
    {
      cookies := map[];
    }

    /** `res.cookie(name, value, options)` */
    method Cookie(name: string, value: string, options: CookieOptions)
      modifies this
      ensures cookies == old(cookies)[name := Set(value, options)]
    {
      cookies := cookies[name := Set(value, options)];
    }

    /** `res.clearCookie(name, {path})` */
    method ClearCookie(name: string, path: string)
      modifies this
      ensures cookies == old(cookies)[name := Cleared(path)]
    {
      cookies := cookies[name := Cleared(path)];
    }
  }
}
