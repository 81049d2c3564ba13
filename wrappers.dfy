/** Option and Result, the two failure-carrying values the rest of the model uses. */
module Wrappers {

  /** A value that may be missing: a JavaScript `null` or `undefined`. */
  datatype Option<+T> = None | Some(value: T)

  /** Either a value or the exception an operation throws instead. */
  datatype Result<+T, +E> = Ok(value: T) | Err(error: E)
}
