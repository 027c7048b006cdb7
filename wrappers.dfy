/** Optional values and results with an error, in place of JavaScript's
    `null`/`undefined` and thrown exceptions. */
module Wrappers {

  datatype Option<+T> = None | Some(value: T)

  datatype Result<+T, +E> = Success(value: T) | Failure(error: E)
}
