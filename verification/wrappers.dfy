/** Failure-carrying wrappers used in place of Go's `(value, error)` pairs
    and nil-able values. */
module Wrappers {

  /** A value that may be absent (a nil pointer or a nil `error` in Go). */
  datatype Option<+T> = None | Some(value: T)

  /** A value or the error that prevented it, as a Go `(T, error)` pair. */
  datatype Result<+R, +E> = Success(value: R) | Failure(error: E)
}
