/** Failure-compatible wrappers shared by the billing modules. */
module Wrappers {

  /** A value that may be absent: JavaScript's `null`/`undefined` versus a value. */
  datatype Option<+T> = None | Some(value: T)

  /** The settled outcome of an operation that either produces a value or throws. */
  datatype Result<+T, +E> = Success(value: T) | Failure(error: E)
}
