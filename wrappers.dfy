/** Optional values and results with an error, as used throughout the model. */
module Wrappers {

  /** A value that may be missing (JavaScript `null` or `undefined`). */
  datatype Option<+T> = None | Some(value: T)

  /** The outcome of an operation that may fail (JavaScript throws). */
  datatype Result<+R, +E> = Success(value: R) | Failure(error: E)
}
