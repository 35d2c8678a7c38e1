/** Failure-carrying datatypes used throughout the model in place of Go's
    `(value, error)` and `(value, ok)` return pairs. */
module Wrappers {

  /** A value that may be missing: Go's `(v, ok)` lookups and nil pointers. */
  datatype Option<+T> = None | Some(value: T) {
    function GetOr(default: T): T {
      match this
      case Some(v) => v
      case None => default
    }
  }

  /** A value or an error: Go's `(T, error)` results. */
  datatype Result<+R, +E> = Success(value: R) | Failure(error: E)

  /** Success without a value, or an error: Go functions returning only `error`. */
  datatype Outcome<+E> = Pass | Fail(error: E)
}
