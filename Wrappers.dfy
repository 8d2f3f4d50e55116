/** Optional values and results with an error, shared by the queue and the multisend model. */
module Wrappers {

  datatype Option<+T> = None | Some(value: T)

  /** A computation that either produced a value or threw an error. */
  datatype Result<+T, +E> = Success(value: T) | Failure(error: E)
}
