/** Option and Result, the two failure-carrying datatypes the model uses for
    Python's `None` returns and for exceptions that reach the caller. */
module Wrappers {

  datatype Option<+T> = None | Some(value: T) {
    function GetOr(default: T): T {
      match this
      case Some(v) => v
      case None => default
    }
  }

  datatype Result<+T, +E> = Ok(value: T) | Err(error: E)
}
