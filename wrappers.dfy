/** Option and Result, the failure-carrying wrappers the rest of the model uses. */
module Wrappers {

  datatype Option<+T> = None | Some(value: T)

  /** `Err` carries the exception a Java call would have thrown. */
  datatype Result<+T, +E> = Ok(value: T) | Err(error: E)
}
