/** Optional values and results with an error, used where the source has
    `null`/`undefined` or a caught exception. */
module Wrappers {

  datatype Option<+T> = None | Some(value: T)

  datatype Result<+T, +E> = Success(value: T) | Failure(error: E)
}
