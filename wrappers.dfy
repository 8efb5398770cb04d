/** Failure-carrying wrappers used across the model. */
module Wrappers {

  /** A value that may be absent: Go's nil slices and nil maps, and optional results. */
  datatype Option<+T> = None | Some(value: T)

  /** A value or the error that took its place: the (value, err) pairs of Go calls. */
  datatype Result<+T, +E> = Success(value: T) | Failure(error: E)
}
