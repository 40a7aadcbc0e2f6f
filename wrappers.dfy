/** Failure-carrying values used throughout the model: a missing value (PHP `null`,
    JavaScript `undefined`), an operation that may throw, and a value-or-error. */
module Wrappers {

  datatype Option<+T> = None | Some(value: T) {
    /** The value, or `default` when absent (JavaScript `??`). */
    function GetOr(default: T): T {
      match this
      case Some(v) => v
      case None => default
    }
  }

  /** The outcome of an awaited call that returns nothing useful but may throw `error`. */
  datatype Outcome<+E> = Pass | Fail(error: E)

  /** The outcome of an awaited call that returns a value or throws `error`. */
  datatype Result<+R, +E> = Success(value: R) | Failure(error: E)
}
