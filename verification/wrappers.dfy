/** Option and Result, the two failure-carrying shapes every other module uses. */
module Wrappers {

  /** A value that may be absent: JavaScript's `null`/`undefined` as opposed to a present value. */
  datatype Option<+T> = None | Some(value: T) {
    function GetOr(default: T): T {
      match this
      case Some(v) => v
      case None => default
    }
  }

  /** The outcome of an awaited call: its value, or the error it threw. */
  datatype Result<+T, +E> = Ok(value: T) | Err(error: E)
}
