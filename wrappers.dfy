/** Option and Result values for the absent values and thrown errors of the build scripts. */
module Wrappers {

  datatype Option<+T> = None | Some(value: T)

  /** A computation that either produces a value or stops with an error, as a JavaScript throw does. */
  datatype Result<+T, +E> = Ok(value: T) | Err(error: E)
}
