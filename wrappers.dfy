/** Optional values and results that may carry an error. */
module Wrappers {

  /** Python's `Optional[X]`: `None` or a value. */
  datatype Option<+T> = None | Some(value: T)

  /** The outcome of a Python call that either returns a value or raises `error`. */
  datatype Result<+T, +E> = Ok(value: T) | Err(error: E)
}
