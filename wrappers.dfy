/** Optional values and results with an error case. */
module Wrappers {

  /** A value that may be absent; `None` stands for a Java `null`. */
  datatype Option<+T> = None | Some(value: T)

  /** The outcome of an operation that may throw instead of returning. */
  datatype Result<+R, +E> = Success(value: R) | Failure(error: E)
}
