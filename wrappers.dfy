/** Option and Result. */
module Wrappers {

  /** A value that may be absent: Python's None, JavaScript's null. */
  datatype Option<+T> = None | Some(value: T)

  /** The outcome of an operation that either yields a value or an error message. */
  datatype Result<+R, +E> = Success(value: R) | Failure(error: E)
}
