/** Option and Result, used for Python's `dict.get` defaults and for raised exceptions. */
module Wrappers {

  datatype Option<+T> = None | Some(value: T) {
    function GetOr(default: T): T {
      match this
      case Some(v) => v
      case None => default
    }
  }

  /** `Err` carries the text `str(e)` of the exception the backend's Python code would raise. */
  datatype Result<+R, +E> = Ok(value: R) | Err(error: E)
}
