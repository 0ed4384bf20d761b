/** Optional values and fallible results shared by every module of the model. */
module Wrappers {

  /** A value that may be absent: Python's `Optional[T]`, `None` included. */
  datatype Option<+T> = None | Some(value: T)

  /** The outcome of a computation that either returns a value or raises an error. */
  datatype Result<+T, +E> = Success(value: T) | Failure(error: E)
}
