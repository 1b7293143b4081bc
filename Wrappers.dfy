/** Optional values and error-carrying results used throughout the model. */
module Wrappers {
  datatype Option<T> = None | Some(value: T)

  /** A computation that either yields a value or fails with an error, as a Python call that raises. */
  datatype Result<T, E> = Ok(value: T) | Err(error: E)
}
