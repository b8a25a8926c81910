/** Option and Result, the failure wrappers used throughout the model. */
module Wrappers {

  datatype Option<+T> = None | Some(value: T)

  /** The outcome of an operation that either succeeds with a value or throws an error. */
  datatype Result<+R, +E> = Success(value: R) | Failure(error: E)
}
