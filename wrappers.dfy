/** Option and Result, the two failure-compatible wrappers the model uses. */
module Wrappers {

  datatype Option<+T> = None | Some(value: T)

  /** The outcome of an operation that either yields a value or throws. */
  datatype Result<+R, +E> = Ok(value: R) | Err(error: E)
}
