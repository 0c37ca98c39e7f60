/** Optional values and results, standing in for Go's nil pointers and (value, error) pairs. */
module Wrappers {

  /** A Go pointer that may be nil: `None` is nil, `Some(v)` points to `v`. */
  datatype Option<+T> = None | Some(value: T)

  /** An SDK call that either returns its output or fails with an error. */
  datatype Result<+T, +E> = Success(value: T) | Failure(error: E)
}
