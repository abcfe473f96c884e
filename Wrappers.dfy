/** Optional values and fallible results, used for Python's `None` and for
    calls that may raise. */
module Wrappers {

  datatype Option<+T> = None | Some(value: T) {
    /** The held value, or `default` when there is none (Python's `d.get(k, default)`). */
    function GetOr(default: T): T {
      match this
      case Some(v) => v
      case None => default
    }
  }

  /** `Failure(e)` stands for an exception `e` escaping from the call. */
  datatype Result<+R, +E> = Success(value: R) | Failure(error: E)
}
