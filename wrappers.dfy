/** Option and Result values, standing for Python's `None` and for raised exceptions. */
module Wrappers {

  datatype Option<+T> = None | Some(value: T) {
    function GetOr(default: T): T {
      match this
      case Some(v) => v
      case None => default
    }
  }

  /** The Python exceptions the modelled code can raise and does not catch itself. */
  datatype Error =
    | KeyError(key: string)
    | ZeroDivisionError
    | AttributeError(what: string)
    | TypeError(what: string)
    | ValueError(what: string)

  datatype Result<+T> = Ok(value: T) | Err(error: Error)
}
