/** Optional values and tagged results shared by the handler and the ARN parser. */
module Results {

  /** A value that may be absent, as a JSON key that may be missing. */
  datatype Option<+T> = None | Some(value: T)

  /** The outcome of a step that either produces a value or raises. */
  datatype Result<+T, +E> = Ok(value: T) | Err(error: E)
}
