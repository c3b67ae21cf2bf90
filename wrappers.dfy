/** Optional values and results with an error, as the handler's Python code
    uses `None` and exceptions. */
module Wrappers {

  datatype Option<+T> = None | Some(value: T) {
    /** `value or default`, as `dict.get(key, default)` behaves on a missing key. */
    function GetOr(default: T): T {
      match this
      case Some(v) => v
      case None => default
    }
  }

  datatype Result<+R, +E> = Success(value: R) | Failure(error: E)
}
