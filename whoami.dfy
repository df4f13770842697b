/**
 * /api/auth/user (src/app/api/auth/user/route.ts): GET rebuilds the user
 * from the claims of the `token` cookie, and turns every AuthError into a
 * 401 that also clears the cookie. The token is read from the cookie only.
 */
module UserRoute {
  import opened Common
  import opened Http
  import opened AuthTypes
  import Auth

  const TokenNotFoundMessage: string := "Authentication token not found."
  const InternalErrorMessage: string := "An internal server error occurred"
  const NotImplementedMessage: string := "User profile updates not yet implemented"
  const NotAllowedMessage: string := "Method not allowed. Use GET to verify authentication."
  const PatchNotAllowedMessage: string :=
    "Method not allowed. Use GET to verify authentication or PUT to update profile."

  /** The user rebuilt from the claims. The role is cast, not checked, and
      both dates are the issue time in milliseconds. */
  function UserFromPayload(p: JWTPayload): (u: User)
    ensures u.id == p.id && u.email == p.email && u.name == p.name && u.role == p.role
    ensures u.createdAt == u.updatedAt == p.iat * 1000
    ensures u.WellTyped() <==> IsRole(p.role)
  {
    User(p.id, p.email, p.name, p.role, p.iat * 1000, p.iat * 1000)
  }

  /** The directive that clears a rejected cookie: only `maxAge` and `path`. */
  function ExpiredCookie(): CookieDirective {
    SetCookie(TokenCookie, "", CookieOptions(None, None, None, Some(0), Some("/")))
  }

  function Reply(status: int, user: Option<User>, message: Option<string>, cookie: Option<CookieDirective>)
    : Response<AuthVerificationResponse>
  {
    Response(status, AuthVerificationResponse(user, message, None), cookie)
  }

  /** GET. `cookies` is the value of the `token` cookie (`None` when there
      is none), or the message of an error reading the cookies. */
  function Get(codec: Auth.Codec, cookies: Result<Option<string>, string>): (r: Response<AuthVerificationResponse>)
    ensures cookies.Failure? ==> r == Reply(500, None, Some(InternalErrorMessage), None)
    ensures cookies.Success? && (cookies.value.None? || cookies.value.value == "") ==>
      r == Reply(401, None, Some(TokenNotFoundMessage), None)
    ensures cookies.Success? && cookies.value.Some? && cookies.value.value != "" ==>
      match Auth.VerifyAuth(codec, cookies.value)
      case Success(p) => r == Reply(200, Some(UserFromPayload(p)), None, None)
      case Failure(e) => r == Reply(401, None, Some(e.message), Some(ExpiredCookie()))
    ensures r.cookie.Some? ==> r.status == 401 && r.cookie == Some(ExpiredCookie())
    ensures r.body.user.Some? <==> r.status == 200
  {
    match cookies
    case Failure(_) => Reply(500, None, Some(InternalErrorMessage), None)
    case Success(token) =>
      if token.None? || token.value == "" then Reply(401, None, Some(TokenNotFoundMessage), None)
      else
        match Auth.VerifyAuth(codec, token)
        case Success(payload) => Reply(200, Some(UserFromPayload(payload)), None, None)
        case Failure(error) => Reply(401, None, Some(error.message), Some(ExpiredCookie()))
  }

  /** A token that expired gives 401, the message "Token has expired", and
      clears the cookie. */
  lemma ExpiredTokenScenario(codec: Auth.Codec, token: string)
    requires token != ""
    requires codec.jwtVerify(token, codec.secret) == Auth.Threw(Auth.JWTExpired)
    ensures Get(codec, Success(Some(token))) ==
      Reply(401, None, Some(Auth.ExpiredMessage), Some(ExpiredCookie()))
  {
  }

  /** For a token that login issued and the verifier still accepts, GET
      returns the identity the token was issued for, with both dates set to
      the issue time; a well-typed user comes back well-typed. */
  lemma IssuedTokenIdentity(codec: Auth.Codec, user: User, issuedAt: int, now: int, token: string)
    requires Auth.CreateToken(codec, user, issuedAt) == Success(token)
    requires token != ""
    requires now < issuedAt + Auth.TokenLifetime
    requires codec.jwtVerify(token, codec.secret) == Auth.Verified(Auth.Encode(Auth.ClaimsFor(user, issuedAt)))
    requires codec.isJWTPayload(Auth.Encode(Auth.ClaimsFor(user, issuedAt)))
    ensures var r := Get(codec, Success(Some(token)));
      && r.status == 200 && r.cookie.None? && r.body.user.Some?
      && var u := r.body.user.value;
      && u.id == user.id && u.email == user.email && u.name == user.name && u.role == user.role
      && u.createdAt == u.updatedAt == issuedAt * 1000
      && (user.WellTyped() ==> u.WellTyped())
  {
    Auth.IssueThenVerify(codec, user, issuedAt, now, token);
  }

  /** The role cast checks nothing: a verified token whose role claim is
      neither "user" nor "admin" yields a user outside the `User` type. */
  lemma RoleCastIsUnchecked(codec: Auth.Codec, token: string, p: JWTPayload)
    requires token != "" && p.role == "root"
    requires codec.jwtVerify(token, codec.secret) == Auth.Verified(Auth.Encode(p))
    requires codec.isJWTPayload(Auth.Encode(p))
    ensures var r := Get(codec, Success(Some(token)));
      r.status == 200 && r.body.user.Some? && !r.body.user.value.WellTyped()
  {
    Auth.PayloadOfEncode(p);
  }

  /** PUT: 501. */
  function Put(timestamp: string): (r: Response<Notice>)
    ensures r.status == 501 && r.cookie.None?
    ensures r.body == Notice(NotImplementedMessage, timestamp)
  {
    Response(501, Notice(NotImplementedMessage, timestamp), None)
  }

  /** POST and DELETE: 405. */
  function MethodNotAllowed(timestamp: string): (r: Response<Notice>)
    ensures r.status == 405 && r.cookie.None?
    ensures r.body == Notice(NotAllowedMessage, timestamp)
  {
    Response(405, Notice(NotAllowedMessage, timestamp), None)
  }

  /** PATCH: 405, with a message that also points at PUT. */
  function PatchNotAllowed(timestamp: string): (r: Response<Notice>)
    ensures r.status == 405 && r.cookie.None?
    ensures r.body == Notice(PatchNotAllowedMessage, timestamp)
  {
    Response(405, Notice(PatchNotAllowedMessage, timestamp), None)
  }
}
