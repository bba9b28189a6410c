/** Failure-compatible wrappers shared by every module of the model. */
module Wrappers {

  /** `Some(v)` for a value that is there, `None` for JavaScript's `undefined`. */
  datatype Option<+T> = None | Some(value: T)

  /** The value of an operation, or what went wrong. */
  datatype Result<+T, +E> = Success(value: T) | Failure(error: E)
}
