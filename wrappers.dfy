/** Optional values and results, standing in for `T | null` / `undefined` and for a thrown error. */
module Wrappers {

  datatype Option<+T> = None | Some(value: T) {
    /** `o ?? d`: the value if present, otherwise the default. */
    function GetOr(default: T): T {
      match this
      case Some(v) => v
      case None => default
    }
  }

  datatype Result<+T, +E> = Success(value: T) | Failure(error: E)
}
