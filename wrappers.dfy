/** Option and Result, the two failure-carrying values used throughout the model. */
module Wrappers {

  /** A value that may be absent: Python's `None` or a missing dictionary key. */
  datatype Option<+T> = None | Some(value: T)

  /** The outcome of an operation that can raise an exception. */
  datatype Result<+R, +E> = Success(value: R) | Failure(error: E)
}
