/** Wrappers shared by the model: an optional value and a success-or-error
    result. */
module Wrappers {

  /** A value that may be missing, e.g. a storage key that was never written. */
  datatype Option<+T> = None | Some(value: T) {

    /** The wrapped value, or `default` when there is none. */
    function GetOr(default: T): T {
      match this
      case Some(v) => v
      case None => default
    }
  }

  /** The outcome of an operation that may throw: a value or an error. */
  datatype Result<+R, +E> = Success(value: R) | Failure(error: E)
}
