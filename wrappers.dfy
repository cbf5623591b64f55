/** Option and Result, the failure-compatible wrappers the rest of the model uses. */
module Wrappers {

  datatype Option<+T> = None | Some(value: T)

  /** A value or the error that the modelled operation throws. */
  datatype Result<+R, +E> = Success(value: R) | Failure(error: E)
}
