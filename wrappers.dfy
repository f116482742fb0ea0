/** Optional values and results with an error, used for the lookups that may
    find nothing (a null or expired pointer) or report a coding error. */
module Wrappers {

  datatype Option<+T> = None | Some(value: T)

  datatype Result<+R, +E> = Success(value: R) | Failure(error: E)
}
