/** Optional values and results with an error, used for the failure paths of the model. */
module Wrappers {

  /** A value that may be absent: Python's `None`, a missing file, a failed request. */
  datatype Option<+T> = None | Some(value: T)

  /** The outcome of an operation that may raise. */
  datatype Result<+T, +E> = Ok(value: T) | Err(error: E)
}
