/** Option and Result, used for Python's `None` and for the outcome of a `try` block. */
module Wrappers {

  datatype Option<+T> = None | Some(value: T)

  datatype Result<+R, +E> = Success(value: R) | Failure(error: E)
}
