/** Optional values and error results used across the model. */
module Wrappers {

  datatype Option<+T> = None | Some(value: T) {
    /** The wrapped value, or `default` when there is none (Python's `d.get(k, default)`). */
    function GetOr(default: T): T {
      match this
      case Some(v) => v
      case None => default
    }
  }

  /** Outcome of an operation that the service can refuse with an HTTP error. */
  datatype Result<+R, +E> = Success(value: R) | Failure(error: E)
}
