/** Option and Result values used for the error returns of the Go code. */
module Wrappers {

  datatype Option<+T> = None | Some(value: T)

  /** A value or an error message (the Go code's `(T, error)` pairs). */
  datatype Result<+T> = Success(value: T) | Failure(error: string)
}
