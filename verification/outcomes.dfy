/** Optional values and results with an error, as used for Go's `(value, error)` returns. */
module Outcomes {

  datatype Option<+T> = None | Some(value: T)

  /** A Go `(value, error)` pair where exactly one side is present. */
  datatype Result<+R, +E> = Success(value: R) | Failure(error: E)
}
