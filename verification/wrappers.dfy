/** Optional values and the success/failure outcome of an operation that may throw. */
module Wrappers {

  /** A value that may be absent: an optional property or an `undefined` result. */
  datatype Option<+T> = None | Some(value: T) {

    /** The carried value, or `default` when there is none. */
    function GetOr(default: T): T {
      match this
      case Some(v) => v
      case None => default
    }
  }

  /** The result of an operation that either returns a value or throws an error. */
  datatype Result<+R, +E> = Success(value: R) | Failure(error: E)
}
