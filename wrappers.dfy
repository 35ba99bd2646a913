/** Failure-carrying result types used for the container's exceptions. */
module Wrappers {

  datatype Option<+T> = None | Some(value: T)

  /** A computation that yields a value or an error. */
  datatype Result<+R, +E> = Success(value: R) | Failure(error: E)

  /** A computation that yields no value, only success or an error. */
  datatype Outcome<+E> = Pass | Fail(error: E)
}
