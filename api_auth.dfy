/**
 * The authentication prelude the band-scoped API routes share
 * (src/app/api/songs/route.ts, src/app/api/messages/route.ts and
 * src/app/api/auth/messages/route.ts each carry a copy): find the token,
 * verify it, load the stored user it names.
 */
module ApiAuth {
  import opened Common
  import opened Text
  import Auth
  import Store

  const BearerPrefix: string := "Bearer "

  /** `getTokenFromRequest`: a header starting with "Bearer " (case
      sensitive) wins, even when what follows is empty; otherwise the
      cookie, with an empty cookie read as no token. */
  function TokenFromRequest(authorization: Option<string>, cookie: Option<string>): (t: Option<string>)
    ensures authorization.Some? && StartsWith(authorization.value, BearerPrefix) ==>
      t == Some(authorization.value[|BearerPrefix|..])
    ensures !(authorization.Some? && StartsWith(authorization.value, BearerPrefix)) ==>
      && (t.Some? <==> cookie.Some? && cookie.value != "")
      && (t.Some? ==> t == cookie)
  {
    if authorization.Some? && StartsWith(authorization.value, BearerPrefix) then
      Some(authorization.value[|BearerPrefix|..])
    else if cookie.Some? && cookie.value != "" then cookie
    else None
  }

  /** The header wins over the cookie; a header with another scheme, or
      "bearer" in lower case, does not. */
  lemma HeaderBeforeCookie(token: string, cookie: Option<string>)
    ensures TokenFromRequest(Some(BearerPrefix + token), cookie) == Some(token)
    ensures TokenFromRequest(Some("Basic " + token), cookie) == TokenFromRequest(None, cookie)
    ensures TokenFromRequest(Some("bearer " + token), cookie) == TokenFromRequest(None, cookie)
  {
    assert (BearerPrefix + token)[..|BearerPrefix|] == BearerPrefix;
    assert (BearerPrefix + token)[|BearerPrefix|..] == token;
    assert ("Basic " + token)[0] == 'B' && ("Basic " + token)[1] == 'a';
    assert ("bearer " + token)[0] == 'b';
  }

  /** A bare "Bearer " header yields the empty token and hides a cookie,
      so the request counts as having no token. */
  lemma EmptyBearerHidesCookie(cookie: Option<string>)
    ensures TokenFromRequest(Some(BearerPrefix), cookie) == Some("")
  {
    assert StartsWith(BearerPrefix, BearerPrefix);
    assert BearerPrefix[|BearerPrefix|..] == "";
  }

  /** Who is calling, as the routes find out. */
  datatype Caller =
    | NoToken
    | VerifyFailed(error: Auth.AuthError)
    | UnknownUser
    | Known(user: Store.StoredUser)

  /** The prelude: `if (!token)`, then `verifyAuth`, then the user lookup. */
  function Authenticate(
    codec: Auth.Codec,
    users: seq<Store.StoredUser>,
    authorization: Option<string>,
    cookie: Option<string>): (c: Caller)
    ensures var t := TokenFromRequest(authorization, cookie);
      && (c.NoToken? <==> t.None? || t.value == "")
      && (c.VerifyFailed? <==> !c.NoToken? && Auth.VerifyAuth(codec, t).Failure?)
      && (c.VerifyFailed? ==> c.error == Auth.VerifyAuth(codec, t).error)
      && (c.UnknownUser? <==>
            !c.NoToken? && Auth.VerifyAuth(codec, t).Success?
            && Store.FindUserById(users, Auth.VerifyAuth(codec, t).value.id).None?)
      && (c.Known? ==>
            && !c.NoToken? && Auth.VerifyAuth(codec, t).Success?
            && c.user in users && c.user.account.id == Auth.VerifyAuth(codec, t).value.id)
  {
    var token := TokenFromRequest(authorization, cookie);
    if token.None? || token.value == "" then NoToken
    else
      match Auth.VerifyAuth(codec, token)
      case Failure(e) => VerifyFailed(e)
      case Success(payload) =>
        match Store.FindUserById(users, payload.id)
        case None => UnknownUser
        case Some(user) => Known(user)
  }
}
