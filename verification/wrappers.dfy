/** Optional values and results, standing in for Python's `None`, for
    `dict.get` on a key that may be absent, and for a raised `ValueError`. */
module Wrappers {

  datatype Option<+T> = None | Some(value: T) {

    /** The value, or `default` when absent, as a lookup with a default
        does. */
    function GetOr(default: T): T {
      match this
      case Some(v) => v
      case None => default
    }
  }

  datatype Result<+T, +E> = Success(value: T) | Failure(error: E)
}
