/**
 * The token codec of src/lib/auth.ts: start-up validation of the signing
 * secret, token issuance and `verifyAuth` with its four `AuthError` codes.
 *
 * HS256 signing and verification (the `jose` library) are oracles carried in
 * a `Codec`, and so is the payload shape guard `isJWTPayload`, whose
 * definition is not part of this model.
 */
module Auth {
  import opened Common
  import opened AuthTypes
  import Text

  const MinSecretLength: nat := 32

  /** `setExpirationTime('24h')`, in seconds. */
  const TokenLifetime: int := 24 * 60 * 60

  const MissingSecretMessage: string :=
    "JWT_SECRET environment variable is required. Please add a secure random string to your .env file."
  const ShortSecretMessage: string :=
    "JWT_SECRET must be at least 32 characters long for security. Please generate a stronger secret."

  /** A signing secret that passed start-up validation; its length is
      JavaScript's, in UTF-16 code units. */
  type Secret = s: string | Text.Utf16Length(s) >= MinSecretLength witness "0123456789abcdef0123456789abcdef"

  /** `getJWTSecret`: the value of JWT_SECRET (`None` when unset), or the
      message of the error that stops the module from loading. */
  function GetJWTSecret(env: Option<string>): (r: Result<Secret, string>)
    ensures r.Success? <==> env.Some? && Text.Utf16Length(env.value) >= MinSecretLength
    ensures r.Success? ==> r.value == env.value
    ensures env.None? || env.value == "" ==> r == Failure(MissingSecretMessage)
    ensures env.Some? && 0 < Text.Utf16Length(env.value) < MinSecretLength ==> r == Failure(ShortSecretMessage)
  {
    if env.None? || env.value == "" then Failure(MissingSecretMessage)
    else if Text.Utf16Length(env.value) < MinSecretLength then Failure(ShortSecretMessage)
    else Success(env.value)
  }

  /** The length test counts UTF-16 code units: sixteen characters outside
      the Basic Multilingual Plane make a long enough secret, and sixteen
      ASCII characters do not. */
  lemma SecretLengthInCodeUnits(astral: string, ascii: string)
    requires |astral| == 16 && forall i :: 0 <= i < |astral| ==> astral[i] as int > 0xFFFF
    requires |ascii| == 16 && forall i :: 0 <= i < |ascii| ==> ascii[i] as int < 0x80
    ensures GetJWTSecret(Some(astral)) == Success(astral)
    ensures GetJWTSecret(Some(ascii)) == Failure(ShortSecretMessage)
  {
    Text.AstralLength(astral);
    Text.BmpLength(ascii);
  }

  // ---------------------------------------------------------------------
  // AuthError
  // ---------------------------------------------------------------------

  datatype AuthCode = InvalidCredentials | TokenExpired | MissingToken | Unauthorized

  /** An `AuthError`; `statusCode` is `None` when the constructor was not given one. */
  datatype AuthError = AuthError(message: string, code: AuthCode, statusCode: Option<int>)

  datatype AuthErrorOptions = AuthErrorOptions(code: Option<AuthCode>, statusCode: Option<int>)

  /** The `AuthError` constructor: the code defaults to UNAUTHORIZED and the
      status code is set only when one is given. */
  function NewAuthError(message: string, options: AuthErrorOptions): (e: AuthError)
    ensures e.message == message
    ensures e.statusCode == options.statusCode
    ensures options.code.None? ==> e.code == Unauthorized
    ensures options.code.Some? ==> e.code == options.code.value
  {
    AuthError(message, if options.code.Some? then options.code.value else Unauthorized, options.statusCode)
  }

  // ---------------------------------------------------------------------
  // The cryptographic oracles
  // ---------------------------------------------------------------------

  /** One decoded claim of a verified token. */
  datatype Claim = StrClaim(s: string) | NumClaim(n: int) | OtherClaim

  /** The claim set `jwtVerify` decodes, before the shape guard. */
  type RawPayload = map<string, Claim>

  /** What `jwtVerify` throws. The message of an error of another class is
      `None` when the thrown value is not an `Error`. */
  datatype JoseError = JWTExpired | JWTInvalid | OtherJoseError(message: Option<string>)

  datatype VerifyOutcome = Verified(payload: RawPayload) | Threw(error: JoseError)

  /** The process-wide codec: the validated secret, the HS256 signer (which
      returns the token or the thrown error's message, `None` for a
      non-`Error`), the HS256 verifier and the shape guard `isJWTPayload`. */
  datatype Codec = Codec(
    secret: Secret,
    sign: (JWTPayload, Secret) -> Result<string, Option<string>>,
    jwtVerify: (string, Secret) -> VerifyOutcome,
    isJWTPayload: RawPayload -> bool)

  /** Loading the module: the secret is validated once and cached; when it
      is invalid nothing can be signed or verified. */
  function LoadCodec(
    env: Option<string>,
    sign: (JWTPayload, Secret) -> Result<string, Option<string>>,
    jwtVerify: (string, Secret) -> VerifyOutcome,
    isJWTPayload: RawPayload -> bool): (r: Result<Codec, string>)
    ensures r.Success? <==> env.Some? && Text.Utf16Length(env.value) >= MinSecretLength
    ensures r.Success? ==> r.value.secret == env.value
    ensures r.Failure? ==> r.error == GetJWTSecret(env).error
  {
    match GetJWTSecret(env)
    case Success(secret) => Success(Codec(secret, sign, jwtVerify, isJWTPayload))
    case Failure(message) => Failure(message)
  }

  /** The claim set of a token for `p`, as the signer serialises it. */
  function Encode(p: JWTPayload): RawPayload {
    map["id" := StrClaim(p.id), "email" := StrClaim(p.email), "name" := StrClaim(p.name),
        "role" := StrClaim(p.role), "exp" := NumClaim(p.exp), "iat" := NumClaim(p.iat)]
  }

  function StrField(raw: RawPayload, k: string): string {
    if k in raw && raw[k].StrClaim? then raw[k].s else ""
  }

  function NumField(raw: RawPayload, k: string): int {
    if k in raw && raw[k].NumClaim? then raw[k].n else 0
  }

  /** The payload a caller reads once the guard has accepted `raw`. A field
      the guard let through with the wrong type reads as "" or 0 here. */
  function PayloadOf(raw: RawPayload): JWTPayload {
    JWTPayload(StrField(raw, "id"), StrField(raw, "email"), StrField(raw, "name"),
               StrField(raw, "role"), NumField(raw, "exp"), NumField(raw, "iat"))
  }

  /** Reading back the claims of a token gives the claims that were signed. */
  lemma PayloadOfEncode(p: JWTPayload)
    ensures PayloadOf(Encode(p)) == p
    ensures Encode(p).Keys == {"id", "email", "name", "role", "exp", "iat"}
  {
  }

  // ---------------------------------------------------------------------
  // createToken
  // ---------------------------------------------------------------------

  /** The claims `createToken` signs for `user` at second `now`. */
  function ClaimsFor(user: User, now: int): (c: JWTPayload)
    ensures c.id == user.id && c.email == user.email && c.name == user.name && c.role == user.role
    ensures c.iat == now
    ensures c.exp == c.iat + TokenLifetime
  {
    JWTPayload(user.id, user.email, user.name, user.role, now + TokenLifetime, now)
  }

  /** The claims depend on the identity fields alone: not on the user's
      creation or update times. */
  lemma ClaimsIgnoreTimestamps(u1: User, u2: User, now: int)
    requires u1.id == u2.id && u1.email == u2.email && u1.name == u2.name && u1.role == u2.role
    ensures ClaimsFor(u1, now) == ClaimsFor(u2, now)
  {
  }

  const CreateTokenFailurePrefix: string := "Failed to create JWT token: "

  function ErrorText(message: Option<string>): string {
    if message.Some? then message.value else "Unknown error"
  }

  /** `createToken`: the signed token, or an AuthError with the default
      code UNAUTHORIZED and no status code. */
  function CreateToken(codec: Codec, user: User, now: int): (r: Result<string, AuthError>)
    ensures r.Success? <==> codec.sign(ClaimsFor(user, now), codec.secret).Success?
    ensures r.Success? ==> r.value == codec.sign(ClaimsFor(user, now), codec.secret).value
    ensures r.Failure? ==> r.error.code == Unauthorized && r.error.statusCode.None?
    ensures r.Failure? ==>
      r.error.message == CreateTokenFailurePrefix + ErrorText(codec.sign(ClaimsFor(user, now), codec.secret).error)
  {
    match codec.sign(ClaimsFor(user, now), codec.secret)
    case Success(token) => Success(token)
    case Failure(message) =>
      Failure(NewAuthError(CreateTokenFailurePrefix + ErrorText(message), AuthErrorOptions(None, None)))
  }

  // ---------------------------------------------------------------------
  // verifyAuth
  // ---------------------------------------------------------------------

  const MissingTokenMessage: string := "Missing or invalid token"
  const BadShapeMessage: string := "Invalid token payload structure"
  const ExpiredMessage: string := "Token has expired"
  const BadSignatureMessage: string := "Invalid token signature"
  const VerificationFailedPrefix: string := "Token verification failed: "

  /** What the `try` block of `verifyAuth` can throw. */
  datatype TryFailure = Jose(error: JoseError) | Raised(authError: AuthError)

  /** The `try` block: verify, then apply the shape guard. */
  function TryVerify(codec: Codec, token: string): (r: Result<JWTPayload, TryFailure>)
    ensures r.Success? <==> codec.jwtVerify(token, codec.secret).Verified? && codec.isJWTPayload(codec.jwtVerify(token, codec.secret).payload)
    ensures r.Success? ==> r.value == PayloadOf(codec.jwtVerify(token, codec.secret).payload)
  {
    match codec.jwtVerify(token, codec.secret)
    case Threw(error) => Failure(Jose(error))
    case Verified(raw) =>
      if !codec.isJWTPayload(raw) then
        Failure(Raised(NewAuthError(BadShapeMessage, AuthErrorOptions(Some(InvalidCredentials), None))))
      else Success(PayloadOf(raw))
  }

  /** The `catch` block: every failure becomes an AuthError, and one that
      already is an AuthError is rethrown unchanged. */
  function Classify(failure: TryFailure): (e: AuthError)
    ensures failure.Raised? ==> e == failure.authError
    ensures failure == Jose(JWTExpired) ==> e == AuthError(ExpiredMessage, TokenExpired, Some(401))
    ensures failure == Jose(JWTInvalid) ==> e == AuthError(BadSignatureMessage, InvalidCredentials, Some(401))
    ensures failure.Jose? && failure.error.OtherJoseError? ==>
      e == AuthError(VerificationFailedPrefix + ErrorText(failure.error.message), Unauthorized, Some(401))
  {
    match failure
    case Jose(JWTExpired) => NewAuthError(ExpiredMessage, AuthErrorOptions(Some(TokenExpired), Some(401)))
    case Jose(JWTInvalid) => NewAuthError(BadSignatureMessage, AuthErrorOptions(Some(InvalidCredentials), Some(401)))
    case Raised(e) => e
    case Jose(OtherJoseError(message)) =>
      NewAuthError(VerificationFailedPrefix + ErrorText(message), AuthErrorOptions(Some(Unauthorized), Some(401)))
  }

  /** `verifyAuth`. The token is `None` when it is undefined or not a
      string. Each outcome of the verifier is sorted into one result. */
  function VerifyAuth(codec: Codec, token: Option<string>): (r: Result<JWTPayload, AuthError>)
    ensures token.None? || token.value == "" ==>
      r == Failure(AuthError(MissingTokenMessage, MissingToken, None))
    ensures token.Some? && token.value != "" ==>
      var outcome := codec.jwtVerify(token.value, codec.secret);
      && (outcome == Threw(JWTExpired) ==>
            r == Failure(AuthError(ExpiredMessage, TokenExpired, Some(401))))
      && (outcome == Threw(JWTInvalid) ==>
            r == Failure(AuthError(BadSignatureMessage, InvalidCredentials, Some(401))))
      && (outcome.Threw? && outcome.error.OtherJoseError? ==>
            r == Failure(AuthError(VerificationFailedPrefix + ErrorText(outcome.error.message), Unauthorized, Some(401))))
      && (outcome.Verified? && !codec.isJWTPayload(outcome.payload) ==>
            r == Failure(AuthError(BadShapeMessage, InvalidCredentials, None)))
      && (outcome.Verified? && codec.isJWTPayload(outcome.payload) ==>
            r == Success(PayloadOf(outcome.payload)))
  {
    if token.None? || token.value == "" then
      Failure(NewAuthError(MissingTokenMessage, AuthErrorOptions(Some(MissingToken), None)))
    else
      match TryVerify(codec, token.value)
      case Success(payload) => Success(payload)
      case Failure(failure) => Failure(Classify(failure))
  }

  /** A missing token is rejected before the verifier is consulted: the
      result is the same whatever the codec. */
  lemma MissingTokenSkipsVerifier(c1: Codec, c2: Codec, token: Option<string>)
    requires token.None? || token.value == ""
    ensures VerifyAuth(c1, token) == VerifyAuth(c2, token)
    ensures VerifyAuth(c1, token).Failure? && VerifyAuth(c1, token).error.code == MissingToken
  {
  }

  /** The status code is left unset exactly on the missing-token and the
      bad-shape paths, and set to 401 on every other failure. */
  lemma StatusCodeOfFailures(codec: Codec, token: Option<string>)
    requires VerifyAuth(codec, token).Failure?
    ensures var e := VerifyAuth(codec, token).error;
      && (e.statusCode.None? <==>
            token.None? || token.value == "" || codec.jwtVerify(token.value, codec.secret).Verified?)
      && (e.statusCode.Some? ==> e.statusCode.value == 401)
  {
  }

  /** Issuing and then verifying a token gives back the claims that were
      signed, for as long as the verifier accepts tokens it signed with the
      same secret until their expiry and the shape guard accepts their
      claims; at or after the expiry the result is TOKEN_EXPIRED. */
  lemma IssueThenVerify(codec: Codec, user: User, issuedAt: int, now: int, token: string)
    requires CreateToken(codec, user, issuedAt) == Success(token)
    requires token != ""
    requires codec.jwtVerify(token, codec.secret) ==
      if now < issuedAt + TokenLifetime then Verified(Encode(ClaimsFor(user, issuedAt))) else Threw(JWTExpired)
    requires codec.isJWTPayload(Encode(ClaimsFor(user, issuedAt)))
    ensures now < issuedAt + TokenLifetime ==>
      && VerifyAuth(codec, Some(token)).Success?
      && var p := VerifyAuth(codec, Some(token)).value;
      && p.id == user.id && p.email == user.email && p.name == user.name && p.role == user.role
      && p.iat == issuedAt && p.exp == p.iat + TokenLifetime
    ensures issuedAt + TokenLifetime <= now ==>
      VerifyAuth(codec, Some(token)) == Failure(AuthError(ExpiredMessage, TokenExpired, Some(401)))
  {
    PayloadOfEncode(ClaimsFor(user, issuedAt));
  }
}
