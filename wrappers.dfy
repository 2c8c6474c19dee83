/** Optional values and success/failure results, standing for JavaScript's
    `undefined`/`null` and for a promise that resolves or rejects. */
module Wrappers {

  datatype Option<+T> = None | Some(value: T)

  datatype Result<+T, +E> = Success(value: T) | Failure(error: E)
}
