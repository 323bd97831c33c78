/** Option and Result, the failure-carrying values the rest of the model returns. */
module Wrappers {

  datatype Option<+T> = None | Some(value: T) {
    function GetOr(default: T): T {
      match this
      case Some(v) => v
      case None => default
    }
  }

  /** A handler either produces a value or passes an error on to the error handler. */
  datatype Result<+T, +E> = Ok(value: T) | Err(error: E)
}
