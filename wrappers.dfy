/** Optional values and results with an error message, for the configuration
    setting and the one failure of the analyser. */
module Wrappers {

  datatype Option<+T> = None | Some(value: T)

  datatype Result<+T> = Success(value: T) | Failure(error: string)
}
