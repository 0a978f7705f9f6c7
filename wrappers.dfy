/** Optional values and results shared by every module of the model. */
module Wrappers {

  /** Python's `Optional[T]`: either `None` or a value. */
  datatype Option<+T> = None | Some(value: T)

  /** A computation that either produces a value or fails with an error. */
  datatype Result<+R, +E> = Success(value: R) | Failure(error: E)
}
