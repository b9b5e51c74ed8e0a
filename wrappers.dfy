/** Optional values and results, for Python's `None` and raised exceptions. */
module Wrappers {

  datatype Option<+T> = None | Some(value: T)

  /** A computation that either produced a value or raised an exception
      whose `str()` is `error`. */
  datatype Result<+T, +E> = Success(value: T) | Failure(error: E)
}
