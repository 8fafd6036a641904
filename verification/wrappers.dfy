/** Failure-carrying values shared by every module: Go's `(T, error)` pairs,
    bare `error` returns and nil-able pointers. */
module Wrappers {

  /** A value that may be absent (a nil pointer, map or function in Go). */
  datatype Option<+T> = None | Some(value: T)

  /** A result or the error that replaced it. */
  datatype Result<+T, +E> = Success(value: T) | Failure(error: E)

  /** A bare error return: `nil` is Pass. */
  datatype Outcome<+E> = Pass | Fail(error: E)
}
