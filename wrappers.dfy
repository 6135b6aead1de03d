/** Failure-carrying values for the Python code's exceptions and missing dictionary keys. */
module Wrappers {

  /** A value that may be absent: a dictionary key that is not set, or a query that failed. */
  datatype Option<+T> = None | Some(value: T) {
    /** `d.get(key, default)` on a key that may be absent. */
    function GetOr(default: T): T {
      match this
      case Some(v) => v
      case None => default
    }
  }

  /** The outcome of a Python call that may raise: the value, or the exception's message. */
  datatype Result<+T> = Ok(value: T) | Err(message: string)
}
