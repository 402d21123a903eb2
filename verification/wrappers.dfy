/** Failure-compatible wrappers: `Option` stands for a Java reference that may
    be null, `Result` for a call that returns a value or throws. */
module Wrappers {

  /** A value that may be absent (Java `null`). */
  datatype Option<+T> = None | Some(value: T)

  /** The outcome of a call: a value, or the exception it raised. */
  datatype Result<+T, +E> = Success(value: T) | Failure(error: E)
}
