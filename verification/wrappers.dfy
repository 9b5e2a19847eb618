/** Option and Result values standing for Python's `None` and for raised errors. */
module Wrappers {

  datatype Option<+T> = None | Some(value: T) {
    /** The value, or `default` for None (Python's `x or default`, `d.get(k, default)`). */
    function GetOr(default: T): T {
      match this
      case Some(v) => v
      case None => default
    }
  }

  /** Either a value or an error the source raises (an HTTP error, a database integrity error). */
  datatype Result<+T, +E> = Ok(value: T) | Err(error: E)
}
