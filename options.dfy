/** Optional values and results with an error, used for the source's error
    branches (exceptions) and for parsing. */
module Options {
  datatype Option<T> = None | Some(value: T)

  datatype Result<T, E> = Ok(value: T) | Err(error: E)
}
