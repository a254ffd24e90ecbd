/** Optional values and results, for Python's `None` from `dict.get` and for raised exceptions. */
module Wrappers {

  datatype Option<+T> = None | Some(value: T) {

    /** `d.get(k, default)`: the value if present, the default otherwise. */
    function GetOr(default: T): T {
      match this
      case Some(v) => v
      case None => default
    }
  }

  datatype Result<+T, +E> = Ok(value: T) | Err(error: E)
}
