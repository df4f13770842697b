/** Failure-compatible wrappers shared by every module of the model. */
module Common {

  /** A value that may be absent (TypeScript's `T | undefined` or `T | null`). */
  datatype Option<+T> = None | Some(value: T)

  /** The outcome of an operation that either returns a value or throws. */
  datatype Result<+T, +E> = Success(value: T) | Failure(error: E)
}
