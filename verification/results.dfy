/** Failure-carrying return types shared by the whole model. */
module Results {

  /** A value that may be absent: Go's nil pointer or nil error. */
  datatype Option<+T> = None | Some(value: T)

  /** Either a value or the error(s) that replaced it. */
  datatype Result<+T, +E> = Ok(value: T) | Err(error: E)
}
