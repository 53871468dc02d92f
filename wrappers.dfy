/** Small failure-carrying datatypes shared by the driver modules. */
module Wrappers {

  datatype Option<+T> = None | Some(value: T)

  /** The result of an operation that can only fail (Go's `error`, nil meaning success). */
  datatype Outcome<+E> = Pass | Fail(error: E)

  /** A value or an error (a Python return value or a raised exception). */
  datatype Result<+T, +E> = Success(value: T) | Failure(error: E)
}
