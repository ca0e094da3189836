/** Option and Result: Go's nil-able values and (value, error) returns. */
module Wrappers {

  /** A value that may be absent (a nil pointer, interface or error in Go). */
  datatype Option<T> = None | Some(value: T)

  /** The outcome of a call that either succeeds with a value or fails with an error. */
  datatype Result<T, E> = Ok(value: T) | Err(error: E)
}
