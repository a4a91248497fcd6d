/** Optional values and results with an error branch, used wherever the
    JavaScript code has `undefined`/`null` or throws. */
module Wrappers {

  datatype Option<+T> = None | Some(value: T)

  datatype Result<+R, +E> = Success(value: R) | Failure(error: E)
}
