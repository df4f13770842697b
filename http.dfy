/** The request and response vocabulary the route handlers share. */
module Http {
  import opened Common

  /** A JSON value as found in a parsed request body. An absent property
      is `Undefined`; objects and arrays are `Compound`; numbers are
      integers here. */
  datatype Json = Undefined | Null | Bool(b: bool) | Num(n: int) | Str(s: string) | Compound

  /** JavaScript truthiness of a JSON value (`!v` is its negation). */
  predicate Truthy(v: Json) {
    match v
    case Undefined => false
    case Null => false
    case Bool(b) => b
    case Num(n) => n != 0
    case Str(s) => s != ""
    case Compound => true
  }

  /** Options passed to `response.cookies.set`; `None` means not given. */
  datatype CookieOptions = CookieOptions(
    httpOnly: Option<bool>,
    secure: Option<bool>,
    sameSite: Option<string>,
    maxAge: Option<int>,
    path: Option<string>)

  /** What a response asks the browser to do with one cookie. */
  datatype CookieDirective =
    | SetCookie(name: string, value: string, options: CookieOptions)

  /** A JSON response: status, body and at most one cookie directive. */
  datatype Response<B> = Response(status: int, body: B, cookie: Option<CookieDirective>)

  /** The `{ message, timestamp }` body of the 405 and 501 handlers. */
  datatype Notice = Notice(message: string, timestamp: string)

  /** The name of the session cookie. */
  const TokenCookie: string := "token"
}
