/**
 * POST /api/auth/login (src/app/api/auth/login/route.ts): a guard chain
 * that ends either in a 200 response carrying the session cookie or in a
 * 400, 401 or 500 response without one. `bcrypt.compare` is an oracle.
 */
module LoginRoute {
  import opened Common
  import opened Http
  import opened AuthTypes
  import Auth
  import Store

  const RequiredMessage: string := "Email and password are required"
  const InvalidCredentialsMessage: string := "Invalid credentials"
  const SuccessMessage: string := "Login successful"
  const InternalErrorMessage: string := "An internal server error occurred"

  /** `maxAge` of the session cookie: 24 hours, in seconds. */
  const SessionMaxAge: int := 24 * 60 * 60

  /** The `email` and `password` properties of the parsed JSON body. */
  datatype LoginBody = LoginBody(email: Json, password: Json)

  /** `bcrypt.compare(password, hash)`: whether they match, or the message
      of what it threw. */
  type PasswordCheck = (Json, string) -> Result<bool, string>

  /** `publicUser`: the stored user without its password. */
  function PublicUser(d: DatabaseUser): (u: User)
    ensures u.id == d.id && u.email == d.email && u.name == d.name && u.role == d.role
    ensures u.createdAt == d.createdAt && u.updatedAt == d.updatedAt
    ensures u.WellTyped() <==> d.WellTyped()
  {
    User(d.id, d.email, d.name, d.role, d.createdAt, d.updatedAt)
  }

  /** Two stored users that differ only in their password hash have the same
      public projection: the password never reaches the response or the token. */
  lemma PublicUserIgnoresPassword(d1: DatabaseUser, d2: DatabaseUser, now: int)
    requires d1.(password := d2.password) == d2
    ensures PublicUser(d1) == PublicUser(d2)
    ensures Auth.ClaimsFor(PublicUser(d1), now) == Auth.ClaimsFor(PublicUser(d2), now)
  {
  }

  /** The cookie a successful login sets. */
  function SessionCookie(token: string, production: bool): (c: CookieDirective)
    ensures c.SetCookie? && c.name == TokenCookie && c.value == token
    ensures c.options == CookieOptions(Some(true), Some(production), Some("strict"), Some(SessionMaxAge), Some("/"))
  {
    SetCookie(TokenCookie, token, CookieOptions(Some(true), Some(production), Some("strict"), Some(SessionMaxAge), Some("/")))
  }

  function Message(status: int, message: string): Response<LoginResponse> {
    Response(status, LoginResponse(message, None, None), None)
  }

  /** The handler. `body` is the parsed JSON body, or the parse error;
      `production` is whether NODE_ENV is "production"; `now` is the clock
      in seconds. A lookup key that is not a string makes the database
      client throw. */
  function Post(
    codec: Auth.Codec,
    users: seq<Store.StoredUser>,
    body: Result<LoginBody, string>,
    checkPassword: PasswordCheck,
    now: int,
    production: bool): (r: Response<LoginResponse>)
    ensures r.status in {200, 400, 401, 500}
    ensures r.cookie.Some? <==> r.status == 200
    ensures r.status == 400 <==>
      body.Success? && (!Truthy(body.value.email) || !Truthy(body.value.password))
    ensures r.status == 400 ==> r == Message(400, RequiredMessage)
    ensures r.status == 401 ==> r == Message(401, InvalidCredentialsMessage)
    ensures r.status == 500 ==> r == Message(500, InternalErrorMessage)
    ensures r.status == 401 <==>
      && body.Success? && Truthy(body.value.email) && Truthy(body.value.password)
      && body.value.email.Str?
      && var found := Store.FindUserByEmail(users, body.value.email.s);
      && (found.None? || checkPassword(body.value.password, found.value.account.password) == Success(false))
    ensures r.status == 200 <==>
      && body.Success? && Truthy(body.value.email) && Truthy(body.value.password)
      && body.value.email.Str?
      && var found := Store.FindUserByEmail(users, body.value.email.s);
      && found.Some?
      && checkPassword(body.value.password, found.value.account.password) == Success(true)
      && Auth.CreateToken(codec, PublicUser(found.value.account), now).Success?
    ensures r.status == 200 ==>
      && body.Success? && body.value.email.Str?
      && var found := Store.FindUserByEmail(users, body.value.email.s);
      && found.Some?
      && checkPassword(body.value.password, found.value.account.password) == Success(true)
      && var user := PublicUser(found.value.account);
      && Auth.CreateToken(codec, user, now).Success?
      && r.body == LoginResponse(SuccessMessage, Some(user), None)
      && r.cookie == Some(SessionCookie(Auth.CreateToken(codec, user, now).value, production))
  {
    match body
    case Failure(_) => Message(500, InternalErrorMessage)
    case Success(LoginBody(email, password)) =>
      if !Truthy(email) || !Truthy(password) then Message(400, RequiredMessage)
      else if !email.Str? then Message(500, InternalErrorMessage)
      else
        match Store.FindUserByEmail(users, email.s)
        case None => Message(401, InvalidCredentialsMessage)
        case Some(found) =>
          match checkPassword(password, found.account.password)
          case Failure(_) => Message(500, InternalErrorMessage)
          case Success(matches) =>
            if !matches then Message(401, InvalidCredentialsMessage)
            else
              var user := PublicUser(found.account);
              match Auth.CreateToken(codec, user, now)
              case Failure(_) => Message(500, InternalErrorMessage)
              case Success(token) =>
                Response(200, LoginResponse(SuccessMessage, Some(user), None), Some(SessionCookie(token, production)))
  }

  /** An unknown email and a known email with a wrong password give the
      same response, so the response does not reveal which emails exist. */
  lemma NoUserEnumeration(
    codec: Auth.Codec, users1: seq<Store.StoredUser>, users2: seq<Store.StoredUser>,
    email: string, password: Json, check: PasswordCheck, now: int, production: bool)
    requires email != "" && Truthy(password)
    requires Store.FindUserByEmail(users1, email).None?
    requires Store.FindUserByEmail(users2, email).Some?
    requires check(password, Store.FindUserByEmail(users2, email).value.account.password) == Success(false)
    ensures Post(codec, users1, Success(LoginBody(Str(email), password)), check, now, production)
         == Post(codec, users2, Success(LoginBody(Str(email), password)), check, now, production)
         == Message(401, InvalidCredentialsMessage)
  {
  }

  /** The required-fields check comes before any lookup: with a missing
      field the response depends neither on the users nor on the hasher. */
  lemma MissingFieldsBeforeLookup(
    c1: Auth.Codec, c2: Auth.Codec, users1: seq<Store.StoredUser>, users2: seq<Store.StoredUser>,
    body: LoginBody, check1: PasswordCheck, check2: PasswordCheck, now: int, p1: bool, p2: bool)
    requires !Truthy(body.email) || !Truthy(body.password)
    ensures Post(c1, users1, Success(body), check1, now, p1) == Post(c2, users2, Success(body), check2, now, p2)
  {
  }

  /** A logged-in user whose stored role is "user" gets that role back. */
  lemma SuccessfulLoginScenario(
    codec: Auth.Codec, users: seq<Store.StoredUser>, password: Json, check: PasswordCheck, now: int)
    requires Store.FindUserByEmail(users, "user@example.com").Some?
    requires Store.FindUserByEmail(users, "user@example.com").value.account.role == "user"
    requires Truthy(password)
    requires check(password, Store.FindUserByEmail(users, "user@example.com").value.account.password) == Success(true)
    requires Auth.CreateToken(codec, PublicUser(Store.FindUserByEmail(users, "user@example.com").value.account), now).Success?
    ensures var r := Post(codec, users, Success(LoginBody(Str("user@example.com"), password)), check, now, false);
      r.status == 200 && r.cookie.Some? && r.body.user.Some? && r.body.user.value.role == "user"
  {
  }
}
