/** Failure-carrying values shared by every module of the model. */
module Wrappers {

  /** A value that may be absent: Python's `None` or a missing key. */
  datatype Option<+T> = None | Some(value: T) {
    function GetOr(default: T): T {
      match this
      case Some(v) => v
      case None => default
    }
  }

  /** The outcome of an operation that can raise: `Err` carries what would have been raised. */
  datatype Result<+T, +E> = Ok(value: T) | Err(error: E) {
    function GetOr(default: T): T {
      match this
      case Ok(v) => v
      case Err(_) => default
    }
  }
}
