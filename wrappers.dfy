/** Option and Result, the two failure-carrying datatypes the model uses. */
module Wrappers {

  /** `None` stands for an absent, `undefined` or `null` value. */
  datatype Option<+T> = None | Some(value: T) {
    function GetOr(default: T): T {
      match this
      case Some(v) => v
      case None => default
    }
  }

  /** The outcome of a computation that may throw: a value, or what was thrown. */
  datatype Result<+T, +E> = Ok(value: T) | Err(error: E)
}
