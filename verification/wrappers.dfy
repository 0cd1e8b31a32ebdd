/** Optional values and outcomes that may carry an error, shared by every module. */
module Wrappers {

  /** A value that may be absent (Python's `None`). */
  datatype Option<+T> = None | Some(value: T) {
    function GetOr(default: T): T {
      match this
      case Some(v) => v
      case None => default
    }
  }

  /** Either a value or the error that a Python `raise` would have carried. */
  datatype Result<+R, +E> = Success(value: R) | Failure(error: E)
}
