/** The two failure-carrying shapes the model needs. */
module Wrappers {

  /** A value that may be absent (Go's nil interface or nil error). */
  datatype Option<+T> = None | Some(value: T)

  /** A value, or the error that stood in its place (Go's `(value, err)` pair). */
  datatype Result<+T, +E> = Ok(value: T) | Err(error: E)
}
