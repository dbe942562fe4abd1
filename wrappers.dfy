/** Optional values and results with an error message, the shapes the
    backend expresses with `None` and with raised exceptions. */
module Wrappers {

  datatype Option<+T> = None | Some(value: T)

  datatype Result<+R> = Success(value: R) | Failure(error: string)
}
