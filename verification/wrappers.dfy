/** Option and Result, the two failure-carrying wrappers the model uses. */
module Wrappers {

  datatype Option<+T> = None | Some(value: T)

  /** The outcome of a store operation that may throw. */
  datatype Result<+R, +E> = Success(value: R) | Failure(error: E)
}
