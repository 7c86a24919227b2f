/** Optional values and success-or-failure results shared by every module of the model. */
module Wrappers {

  /** A value that may be absent (JavaScript `undefined`/`null` where the distinction does not matter). */
  datatype Option<+T> = None | Some(value: T)

  /** The outcome of an operation that can fail with an error of type E. */
  datatype Result<+T, +E> = Success(value: T) | Failure(error: E)
}
