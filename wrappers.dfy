/** Optional values and success-or-failure values, used by every other module. */
module Wrappers {

  /** A value that may be missing: JavaScript's `null`/`undefined` is `None`. */
  datatype Option<+T> = None | Some(value: T)

  /** The outcome of a check that either yields a value or reports an error. */
  datatype Result<+R, +E> = Success(value: R) | Failure(error: E)
}
