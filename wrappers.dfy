/** Failure-carrying values standing in for Go's `error` results. */
module Wrappers {

  /** `None` is Go's nil error; `Some(e)` an error value. */
  datatype Option<+T> = None | Some(value: T)

  /** A Go `(value, error)` pair where the value matters only on success. */
  datatype Result<+T, +E> = Ok(value: T) | Err(error: E)
}
