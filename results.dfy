/** Optional values and results with an error, for the Go functions that
    return a value beside an `error`. */
module Results {

  datatype Option<T> = None | Some(value: T)

  datatype Result<T, E> = Ok(value: T) | Err(error: E)
}
