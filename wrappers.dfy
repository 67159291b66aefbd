/** Optional values and results shared by the client-side modules. */
module Wrappers {

  /** A value that may be absent: JavaScript's `undefined` (or `null`) is `None`. */
  datatype Option<+T> = None | Some(value: T)

  /** The outcome of a call that may throw. */
  datatype Result<+R, +E> = Success(value: R) | Failure(error: E)
}
