/** Optional values and results with an error, used for Python's `None`, for lookups
    that may fail and for the exceptions the service lets escape. */
module Wrappers {

  /** A value that may be absent (Python's `None`). */
  datatype Option<+T> = None | Some(value: T)

  /** Either a value or the error that prevented computing it. */
  datatype Result<+T, +E> = Ok(value: T) | Err(error: E)
}
