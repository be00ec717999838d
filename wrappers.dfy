/** Option and Result, used for JavaScript's `undefined` and for the
    error path of the startup checks. */
module Wrappers {

  datatype Option<+T> = None | Some(value: T)

  datatype Result<+R, +E> = Success(value: R) | Failure(error: E)
}
