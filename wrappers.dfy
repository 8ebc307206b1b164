/** Option and Result, the two shapes the components use for "absent" and "thrown". */
module Wrappers {

  datatype Option<+T> = None | Some(value: T) {
    function GetOr(default: T): T {
      match this
      case Some(v) => v
      case None => default
    }
  }

  /** A call that either returns a value or throws an error. */
  datatype Result<+R, +E> = Ok(value: R) | Err(error: E)
}
