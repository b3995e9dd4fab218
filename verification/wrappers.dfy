/** Option and Result, used for Python's `None` and for raised exceptions. */
module Wrappers {

  /** A value or Python's `None`. */
  datatype Option<+T> = None | Some(value: T)

  /** A value, or the exception a Python function would raise instead. */
  datatype Result<+T, +E> = Success(value: T) | Failure(error: E)
}
