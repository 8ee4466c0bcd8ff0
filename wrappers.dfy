/** Failure-carrying return values shared by the modules of the segregation model. */
module Wrappers {

  /** A value that may be absent (Python's `None`). */
  datatype Option<+T> = None | Some(value: T)

  /** Either a value or the error that Python would have raised. */
  datatype Result<+T, +E> = Success(value: T) | Failure(error: E)
}
