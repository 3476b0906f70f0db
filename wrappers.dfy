/** Option and Result values standing for Go's `(value, error)` returns. */
module Wrappers {

  datatype Option<+T> = None | Some(value: T) {
    /** Go's zero-value fallback: the value when present, `default` otherwise. */
    function GetOr(default: T): T {
      match this
      case Some(v) => v
      case None => default
    }
  }

  /** A value, or the error text a Go call returned instead. */
  datatype Result<+R> = Ok(value: R) | Err(error: string)
}
