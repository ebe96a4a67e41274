/** Option and Result datatypes shared by the other modules. */
module Wrappers {

  /** A value that may be absent: Python's `None`, or an exception that a caller swallows. */
  datatype Option<+T> = None | Some(value: T)

  /** A value or the error that the source raises instead of returning. */
  datatype Result<+T, +E> = Success(value: T) | Failure(error: E)
}
