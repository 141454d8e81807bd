/** The optional and failure-carrying values used throughout the model. */
module Wrappers {
  datatype Option<+T> = None | Some(value: T)

  /** A Python call that returns a value or raises. */
  datatype Result<+T, +E> = Ok(value: T) | Err(error: E)
}
