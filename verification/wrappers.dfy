/** Failure-carrying values: the Go `error` results of the contract. */
module Wrappers {

  datatype Option<+T> = None | Some(value: T)

  /** A value or an error. */
  datatype Result<+R, +E> = Success(value: R) | Failure(error: E)

  /** A bare Go `error`: nil (Pass) or an error value. */
  datatype Outcome<+E> = Pass | Fail(error: E)
}
