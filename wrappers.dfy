/** Failure-carrying results, used in place of the exceptions the registry throws. */
module Wrappers {

  /** A computation that produced a value or failed with an error. */
  datatype Result<+T, +E> = Success(value: T) | Failure(error: E)

  /** A computation that produces no value and either passed or failed with an error. */
  datatype Outcome<+E> = Pass | Fail(error: E)
}
