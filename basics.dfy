/** Optional values and results with an error, used wherever Python has `None` or raises. */
module Basics {

  datatype Option<T> = None | Some(value: T)

  datatype Result<T, E> = Ok(value: T) | Err(error: E)
}
