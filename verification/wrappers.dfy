/** Small failure-compatible datatypes shared by the modules of this project. */
module Wrappers {

  /** A value that may be absent: an uninitialised field or a null result. */
  datatype Option<+T> = None | Some(value: T) {

    /** The carried value, or `default` when there is none. */
    function GetOr(default: T): (r: T)
      ensures Some? ==> r == value
      ensures None? ==> r == default
    {
      match this
      case Some(v) => v
      case None => default
    }
  }

  /** Either a value or a reason why there is none. */
  datatype Result<+T, +E> = Ok(value: T) | Err(error: E)
}
