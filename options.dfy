/** Optional values and results with an error, shared by the two models. */
module Options {

  /** A value that may be absent; stands for a Java reference that may be null. */
  datatype Option<+T> = None | Some(value: T)

  /** The value of a call that either returns normally or throws `error`. */
  datatype Result<+T, +E> = Ok(value: T) | Err(error: E)
}
