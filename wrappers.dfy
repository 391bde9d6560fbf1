/** Failure-carrying value types shared by every module of the model. */
module Wrappers {

  datatype Option<+T> = None | Some(value: T)

  /** The outcome of a Swift function that either returns a value or throws. */
  datatype Result<+T, +E> = Success(value: T) | Failure(error: E)

  /** The outcome of a Swift function that returns nothing or throws. */
  datatype Outcome<+E> = Pass | Fail(error: E)
}
