/** Option and Result types used for the source's `None` values and raised exceptions. */
module Wrappers {

  datatype Option<+T> = None | Some(value: T) {
    function GetOr(default: T): T {
      match this
      case Some(v) => v
      case None => default
    }
  }

  /** The Python exception classes the modelled code can raise. */
  datatype Error =
    | ValueError
    | KeyError
    | IndexError
    | TypeError
    | ZeroDivisionError
    | AttributeError
    | StopIteration

  datatype Result<+T> = Ok(value: T) | Err(error: Error)
}
