/** Optional values and results with an error, as used throughout the model. */
module Wrappers {

  /** A value that may be absent: a JavaScript `undefined` or a missing property. */
  datatype Option<+T> = None | Some(value: T)

  /** A computation that either yields a value or throws an error. */
  datatype Result<+T, +E> = Success(value: T) | Failure(error: E)
}
