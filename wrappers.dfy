/** Option and Result: the Go idioms of a nil-able value and of a `(value, error)` pair. */
module Wrappers {

  /** A value that may be absent -- a nil pointer or nil interface in the source. */
  datatype Option<+T> = None | Some(value: T)

  /** The outcome of an operation that returns a value or an error. */
  datatype Result<+R, +E> = Success(value: R) | Failure(error: E)
}
