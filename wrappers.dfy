/** The optional value and the success-or-failure value used throughout the model. */
module Wrappers {

  datatype Option<+T> = None | Some(value: T)

  /** A computation that either produces a value or raises with a message. */
  datatype Result<+T, +E> = Success(value: T) | Failure(error: E)
}
