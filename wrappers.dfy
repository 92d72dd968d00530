/** Failure-carrying wrappers used throughout the model. */
module Wrappers {

  /** An optional value: Go's nil pointer is `None`. */
  datatype Option<+T> = None | Some(value: T)

  /** A value or the error that replaced it. */
  datatype Result<+R, +E> = Success(value: R) | Failure(error: E)

  /** A check that passed or failed with an error. */
  datatype Outcome<+E> = Pass | Fail(error: E)
}
