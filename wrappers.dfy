/** Optional values and results that carry an error instead of throwing. */
module Wrappers {

  datatype Option<+T> = None | Some(value: T)

  /** A call that either succeeds with a value or fails the way the source throws. */
  datatype Result<+T, +E> = Success(value: T) | Failure(error: E)
}
