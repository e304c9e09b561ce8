/** Optional values and error returns shared by every module of the model. */
module Results {

  datatype Option<+T> = None | Some(value: T)

  /** An operation that either succeeds with a value or fails with an error
      (the HTTP error responses and exceptions of the system). */
  datatype Result<+R, +E> = Ok(value: R) | Err(error: E)
}
