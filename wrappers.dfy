/** Optional values and results with an error message, for the places where the
    application either has a value or has thrown an `Error`. */
module Wrappers {

  datatype Option<+T> = None | Some(value: T)

  datatype Result<+T, +E> = Success(value: T) | Failure(error: E)
}
