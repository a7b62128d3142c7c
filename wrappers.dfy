/**
 * Option, for Python's `None`-or-value returns, and Result, for an operation that returns a
 * value or raises an exception with a message.
 */
module Wrappers {

  datatype Option<+T> = None | Some(value: T) {

    /** The value, or `default` when there is none. */
    function GetOr(default: T): T {
      match this
      case Some(v) => v
      case None => default
    }
  }

  datatype Result<+T> = Ok(value: T) | Raised(error: string)
}
