/** Option and Result values used across the model. */
module Wrappers {

  /** A value that may be absent (a nil pointer in the source). */
  datatype Option<+T> = None | Some(value: T)

  /** The outcome of an operation that returns a value or an error. */
  datatype Result<+R, +E> = Ok(value: R) | Err(error: E)
}
