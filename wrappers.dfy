/** Failure-compatible helper types shared by the model. */
module Wrappers {

  datatype Option<+T> = None | Some(value: T) {
    function GetOr(default: T): T {
      match this
      case Some(v) => v
      case None => default
    }
  }

  /** A value, or the error the source throws instead of returning it. */
  datatype Result<+R, +E> = Ok(value: R) | Err(error: E)
}
