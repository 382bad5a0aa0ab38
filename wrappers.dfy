/** Optional values and failing computations shared by every module of the model. */
module Wrappers {
  /** A Java reference that may be null. */
  datatype Option<T> = None | Some(value: T)

  /** A computation that either produces a value or throws (the message names the exception). */
  datatype Result<T> = Ok(value: T) | Err(error: string)
}
