/** Optional values and results with an error, shared by every module. */
module Wrappers {

  /** A value that may be missing: Python's None, JavaScript's null. */
  datatype Option<+T> = None | Some(value: T) {

    /** The value, or `default` when it is missing. */
    function GetOr(default: T): T {
      match this
      case Some(v) => v
      case None => default
    }
  }

  /** The outcome of an operation that may raise an error. */
  datatype Result<+R, +E> = Success(value: R) | Failure(error: E)
}
