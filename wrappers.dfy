/** Option and Result, used for Python's `None` and for the exceptions the source raises. */
module Wrappers {

  /** A value that may be absent, as a Python `None`-able value. */
  datatype Option<+T> = None | Some(value: T)

  /** The outcome of an operation that may raise. */
  datatype Result<+R, +E> = Success(value: R) | Failure(error: E)
}
