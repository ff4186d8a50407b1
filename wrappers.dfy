/** Failure-carrying datatypes shared by every module. */
module Wrappers {

  /** A value that may be absent (JavaScript's `null`/`undefined`). */
  datatype Option<+T> = None | Some(value: T)

  /** The outcome of a step that may throw: the value, or the error's message. */
  datatype Result<+T, +E> = Success(value: T) | Failure(error: E)
}
