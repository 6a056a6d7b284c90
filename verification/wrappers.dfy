/** Optional values and results with an error branch, used wherever the
    modelled Python code returns `None` or raises an exception. */
module Wrappers {

  datatype Option<+T> = None | Some(value: T) {

    /** The wrapped value, or `default` when there is none. */
    function GetOr(default: T): T {
      match this
      case Some(v) => v
      case None => default
    }
  }

  /** `Ok` carries the normal return value, `Err` the exception raised. */
  datatype Result<+T, +E> = Ok(value: T) | Err(error: E)
}
