/** Optional values and success/failure results, used for the error returns
    of the Go code (a value together with an `error`, or a map lookup with `ok`). */
module Wrappers {

  datatype Option<+T> = None | Some(value: T)

  datatype Result<+R, +E> = Success(value: R) | Failure(error: E)
}
