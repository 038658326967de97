/** Optional values and outcomes with an error, used for JavaScript's `undefined`/`null`
    and for calls that can throw. */
module Wrappers {

  datatype Option<+T> = None | Some(value: T)

  datatype Result<+T, +E> = Success(value: T) | Failure(error: E)
}
