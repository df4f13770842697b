/**
 * The authentication records of src/types/auth.ts. TypeScript checks these
 * shapes only at compile time: a cast such as `role as "user" | "admin"`
 * does not check anything at run time. So `role` is a string here and the
 * restriction of `User.role` is the predicate `WellTyped`, which a value
 * built through a cast need not satisfy.
 */
module AuthTypes {
  import opened Common

  /** The two roles `User.role` admits. */
  predicate IsRole(s: string) {
    s == "user" || s == "admin"
  }

  /** A user as the application shows it: no password. Dates are
      milliseconds since the epoch. */
  datatype User = User(
    id: string,
    email: string,
    name: string,
    role: string,
    createdAt: int,
    updatedAt: int)
  {
    predicate WellTyped() { IsRole(role) }
  }

  /** A user as stored: `User` plus the password hash. */
  datatype DatabaseUser = DatabaseUser(
    id: string,
    email: string,
    name: string,
    role: string,
    createdAt: int,
    updatedAt: int,
    password: string)
  {
    predicate WellTyped() { IsRole(role) }
  }

  /** The claims of a session token; `role` is an unrestricted string and
      `exp`, `iat` are seconds since the epoch. */
  datatype JWTPayload = JWTPayload(
    id: string,
    email: string,
    name: string,
    role: string,
    exp: int,
    iat: int)

  datatype LoginResponse = LoginResponse(message: string, user: Option<User>, timestamp: Option<string>)

  datatype LogoutResponse = LogoutResponse(message: string, timestamp: Option<string>)

  datatype AuthVerificationResponse = AuthVerificationResponse(
    user: Option<User>,
    message: Option<string>,
    timestamp: Option<string>)
}
