/** Optional and fallible values, used for JavaScript's `null`/`undefined`
    and for calls into external services that may throw. */
module Wrappers {

  datatype Option<+T> = None | Some(value: T)

  datatype Result<+R, +E> = Success(value: R) | Failure(error: E)
}
