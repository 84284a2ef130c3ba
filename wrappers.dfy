/** Option and Result, the failure-carrying values used throughout the model. */
module Wrappers {

  /** A value that may be absent: a Go pointer or slice that may be nil. */
  datatype Option<+T> = None | Some(value: T)

  /** The (value, error) pair a Go function returns, with exactly one side present. */
  datatype Result<+T, +E> = Success(value: T) | Failure(error: E)
}
