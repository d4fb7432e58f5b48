/** Failure-carrying values shared by the drone model: an optional value, a
    result that is either a value or an error, and the outcome of an operation
    that only changes state. */
module Outcomes {

  datatype Option<+T> = None | Some(value: T)

  datatype Result<+T, +E> = Success(value: T) | Failure(error: E)

  datatype Outcome<+E> = Pass | Fail(error: E)
}
