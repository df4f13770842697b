/**
 * The route gate of src/middleware.ts: which paths it runs on, and for
 * those whether the request proceeds or is redirected to the login page.
 * The decision reads only the pathname and the `token` cookie; the HTTP
 * method is not an input.
 */
module Middleware {
  import opened Common
  import opened Text
  import Auth

  const LoginPath: string := "/login"

  /** The only public path. */
  const PublicPaths: seq<string> := [LoginPath]

  /** The lookahead of the matcher at `favicon.ico`; its `.` is a regex
      wildcard, so any character stands between `favicon` and `ico`. */
  predicate FaviconPrefix(rest: string) {
    |rest| >= 11 && rest[..7] == "favicon" && rest[8..11] == "ico"
  }

  /** `config.matcher`: a path starting with `/` whose remainder does not
      begin with `api`, `_next/static`, `_next/image` or `favicon.ico`. */
  predicate Matched(pathname: string) {
    && StartsWith(pathname, "/")
    && var rest := pathname[1..];
    && !StartsWith(rest, "api")
    && !StartsWith(rest, "_next/static")
    && !StartsWith(rest, "_next/image")
    && !FaviconPrefix(rest)
  }

  /** `NextResponse.next()` or a redirect, possibly deleting the `token` cookie. */
  datatype Decision = Next | Redirect(location: string, deleteTokenCookie: bool)

  /** The `middleware` function on a matched path; `tokenCookie` is the
      value of the `token` cookie, `None` when there is none. */
  function Gate(codec: Auth.Codec, pathname: string, tokenCookie: Option<string>): (d: Decision)
    ensures pathname in PublicPaths ==> d == Next
    ensures d.Redirect? ==> d.location == LoginPath
    ensures pathname !in PublicPaths && (tokenCookie.None? || tokenCookie.value == "") ==>
      d == Redirect(LoginPath, false)
    ensures d == Next <==>
      pathname in PublicPaths || Auth.VerifyAuth(codec, tokenCookie).Success?
    ensures d.Redirect? && d.deleteTokenCookie <==>
      && pathname !in PublicPaths
      && tokenCookie.Some? && tokenCookie.value != ""
      && Auth.VerifyAuth(codec, tokenCookie).Failure?
  {
    if pathname in PublicPaths then Next
    else if tokenCookie.None? || tokenCookie.value == "" then Redirect(LoginPath, false)
    else
      match Auth.VerifyAuth(codec, tokenCookie)
      case Success(_) => Next
      case Failure(_) => Redirect(LoginPath, true)
  }

  /** The middleware as deployed: `None` when the matcher excludes the path
      and the gate does not run at all. */
  function Middleware(codec: Auth.Codec, pathname: string, tokenCookie: Option<string>): (d: Option<Decision>)
    ensures d.None? <==> !Matched(pathname)
    ensures d.Some? ==> d.value == Gate(codec, pathname, tokenCookie)
  {
    if Matched(pathname) then Some(Gate(codec, pathname, tokenCookie)) else None
  }

  /** `/login` is let through without looking at the cookie or the codec,
      also for a user who holds a valid token. */
  lemma LoginNeedsNothing(c1: Auth.Codec, c2: Auth.Codec, t1: Option<string>, t2: Option<string>)
    ensures Gate(c1, LoginPath, t1) == Gate(c2, LoginPath, t2) == Next
  {
  }

  /** The home page is not public: without a token it redirects to `/login`. */
  lemma HomeIsProtected(codec: Auth.Codec)
    ensures Matched("/")
    ensures Middleware(codec, "/", None) == Some(Redirect(LoginPath, false))
  {
  }

  /** The exclusion is a prefix test on the text after the leading `/`. */
  lemma ExcludedPaths(codec: Auth.Codec, t: Option<string>)
    ensures Middleware(codec, "/api/songs", t).None?
    ensures Middleware(codec, "/apiary", t).None?
    ensures Middleware(codec, "/_next/static/chunk.js", t).None?
    ensures Middleware(codec, "/_next/image", t).None?
    ensures Middleware(codec, "/favicon.ico", t).None?
    ensures Middleware(codec, "/faviconXico", t).None?
    ensures Middleware(codec, "/dashboard", t).Some?
    ensures Middleware(codec, "/_next/data", t).Some?
  {
    assert "/api/songs"[1..][..3] == "api";
    assert "/apiary"[1..][..3] == "api";
    assert "/_next/static/chunk.js"[1..][..12] == "_next/static";
    assert "/_next/image"[1..][..11] == "_next/image";
    assert "/favicon.ico"[1..][..7] == "favicon" && "/favicon.ico"[1..][8..11] == "ico";
    assert "/faviconXico"[1..][..7] == "favicon" && "/faviconXico"[1..][8..11] == "ico";
    assert "/dashboard"[1..][..3][0] == 'd';
    assert "/_next/data"[1..][..3][0] == '_';
    assert "/dashboard"[1..][..7][0] == 'd';
  }

  /** A token the codec rejects, whatever the reason, sends the browser to
      `/login` and deletes the cookie; a token it accepts lets it through. */
  lemma DashboardScenarios(codec: Auth.Codec, token: string)
    requires token != ""
    ensures Gate(codec, "/dashboard", None) == Redirect(LoginPath, false)
    ensures Gate(codec, "/dashboard", Some("")) == Redirect(LoginPath, false)
    ensures codec.jwtVerify(token, codec.secret) == Auth.Threw(Auth.JWTExpired) ==>
      Gate(codec, "/dashboard", Some(token)) == Redirect(LoginPath, true)
    ensures Auth.VerifyAuth(codec, Some(token)).Success? ==> Gate(codec, "/dashboard", Some(token)) == Next
  {
  }
}
