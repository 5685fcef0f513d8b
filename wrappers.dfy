/** Optional values and results shared by every module of the model. */
module Wrappers {

  /** A value that may be absent: `undefined`/`null` in the application. */
  datatype Option<+T> = None | Some(value: T) {

    /** The value, or `default` when absent (a destructuring default `x = d`). */
    function GetOr(default: T): (r: T)
      ensures Some? ==> r == value
      ensures None? ==> r == default
    {
      match this
      case Some(v) => v
      case None => default
    }
  }

  /** The outcome of an operation that either returns a value or throws. */
  datatype Result<+T, +E> = Ok(value: T) | Err(error: E)
}
