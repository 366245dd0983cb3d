/** Optional values and results that carry an error, shared by every module. */
module Wrappers {

  /** A value that may be absent. */
  datatype Option<T> = None | Some(value: T)

  /** Either a value or the error that replaced it. */
  datatype Result<T, E> = Ok(value: T) | Err(error: E)
}
