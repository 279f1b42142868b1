/** Failure-carrying values used in place of the exceptions the driver raises. */
module Outcomes {

  datatype Option<+T> = None | Some(value: T)

  datatype Result<+T, +E> = Success(value: T) | Failure(error: E)

  /** A success that carries no value, or an error. */
  datatype Outcome<+E> = Pass | Fail(error: E)
}
