/** Optional values and results, used wherever the service returns None or raises. */
module Wrappers {

  datatype Option<+T> = None | Some(value: T)

  datatype Result<+T, +E> = Ok(value: T) | Err(error: E)

  /** What a call that returns nothing returns. */
  datatype Unit = Unit
}
