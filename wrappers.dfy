/** Option and Result, the two failure-carrying values the model uses. */
module Wrappers {

  /** A value that may be absent: JavaScript's `null` / `undefined`. */
  datatype Option<+T> = None | Some(value: T)

  /** The outcome of an expression that may throw. */
  datatype Result<+T> = Ok(value: T) | Throws(error: string)
}
