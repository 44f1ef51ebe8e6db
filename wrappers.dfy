/** Failure-compatible wrappers shared by the other modules. */
module Wrappers {

  /** A value that may be missing: a Python `None`, a missing attribute, a NaN cell. */
  datatype Option<+T> = None | Some(value: T) {

    function GetOr(default: T): T {
      match this
      case Some(v) => v
      case None => default
    }
  }

  /** The outcome of an operation that may fail with an error value. */
  datatype Result<+R, +E> = Success(value: R) | Failure(error: E)
}
