/** Optional values and fallible results, as returned by the builder closures and the import planners. */
module Wrappers {
  datatype Option<T> = None | Some(value: T)

  datatype Result<T, E> = Ok(value: T) | Err(error: E)
}
