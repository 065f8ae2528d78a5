/** Optional values, used for Python's `None` and for results that may be absent. */
module Wrappers {

  datatype Option<+T> = None | Some(value: T)

  /** A result that is either a value or the message of the exception that prevented it. */
  datatype Result<+R> = Success(value: R) | Failure(message: string)
}
