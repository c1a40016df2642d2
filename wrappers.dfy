/** Failure-carrying values shared by every module of the model. */
module Wrappers {

  /** A value that may be missing: JavaScript's `null`/`undefined` on one side, a value on the other. */
  datatype Option<+T> = None | Some(value: T) {
    function GetOr(default: T): T {
      match this
      case Some(v) => v
      case None => default
    }
  }

  /** The result of a call that either returns or throws. */
  datatype Result<+T, +E> = Ok(value: T) | Err(error: E)
}
