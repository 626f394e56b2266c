/** Optional values and results with an error payload. */
module Wrappers {

  /** An absent (Java `null`) or present value. */
  datatype Option<+T> = None | Some(value: T)

  /** The outcome of a step that may fail fast, as `checkState` does. */
  datatype Result<+T, +E> = Success(value: T) | Failure(error: E)
}
