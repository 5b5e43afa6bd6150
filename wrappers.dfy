/** Optional values and results shared by every module of the model. */
module Wrappers {

  /** A value that may be absent (a missing key, `null`, a failed parse). */
  datatype Option<+T> = None | Some(value: T)

  /** The outcome of an operation that can raise: a value or the error it raised. */
  datatype Result<+T, +E> = Success(value: T) | Failure(error: E)
}
