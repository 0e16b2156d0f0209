/** Optional values and fallible results shared by the modules. */
module Wrappers {
  datatype Option<T> = None | Some(value: T)

  /** A computation that either produces a value or fails with a message. */
  datatype Result<T> = Success(value: T) | Failure(error: string)
}
