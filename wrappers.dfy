/** Option and Result, the two failure-carrying datatypes the model uses. */
module Wrappers {

  /** A value that may be absent: JavaScript's `T | null` or `T | undefined`. */
  datatype Option<+T> = None | Some(value: T)

  /** The outcome of a step that may throw. */
  datatype Result<+R, +E> = Success(value: R) | Failure(error: E)
}
