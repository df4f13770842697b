/**
 * /api/auth/logout (src/app/api/auth/logout/route.ts): POST always answers
 * 200 and overwrites the session cookie with an empty, already expired
 * one; GET, PUT and DELETE answer 405.
 */
module LogoutRoute {
  import opened Common
  import opened Http
  import opened AuthTypes
  import LoginRoute

  const SuccessMessage: string := "Logout successful"
  const NotAllowedMessage: string := "Method not allowed. Use POST to logout."

  /** The cookie `POST` sets: empty value, `maxAge` 0. */
  function ClearedCookie(production: bool): CookieDirective {
    SetCookie(TokenCookie, "", CookieOptions(Some(true), Some(production), Some("strict"), Some(0), Some("/")))
  }

  /** The handler; it reads nothing of the request. `timestamp` is the
      ISO-8601 time of the call. */
  function Post(timestamp: string, production: bool): (r: Response<LogoutResponse>)
    ensures r.status == 200
    ensures r.body == LogoutResponse(SuccessMessage, Some(timestamp))
    ensures r.cookie.Some? && r.cookie.value.SetCookie?
    ensures var c := r.cookie.value;
      && c.name == TokenCookie && c.value == ""
      && c.options.maxAge == Some(0) && c.options.httpOnly == Some(true)
      && c.options.sameSite == Some("strict") && c.options.path == Some("/")
      && c.options.secure == Some(production)
  {
    Response(200, LogoutResponse(SuccessMessage, Some(timestamp)), Some(ClearedCookie(production)))
  }

  /** Logging out twice gives the same status and the same cookie directive. */
  lemma PostIsIdempotent(t1: string, t2: string, production: bool)
    ensures Post(t1, production).status == Post(t2, production).status
    ensures Post(t1, production).cookie == Post(t2, production).cookie
  {
  }

  /** The logout cookie replaces the one login sets: same name, path and
      flags, with an empty value and `maxAge` 0, so the browser drops it. */
  lemma LogoutReplacesSessionCookie(token: string, production: bool)
    ensures var session := LoginRoute.SessionCookie(token, production);
      var cleared := Post("", production).cookie.value;
      && cleared == session.(value := "", options := session.options.(maxAge := Some(0)))
  {
  }

  /** GET, PUT and DELETE: 405 with no cookie. */
  function MethodNotAllowed(timestamp: string): (r: Response<LogoutResponse>)
    ensures r.status == 405 && r.cookie.None?
    ensures r.body == LogoutResponse(NotAllowedMessage, Some(timestamp))
  {
    Response(405, LogoutResponse(NotAllowedMessage, Some(timestamp)), None)
  }
}
