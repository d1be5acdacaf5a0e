/** Small value wrappers shared by every module of the model. */
module Base {

  /** A value that may be absent: JavaScript's `undefined`/`null` for an optional field. */
  datatype Option<T> = None | Some(value: T)

  /** The outcome of an operation that the source can end with `throw`. */
  datatype Result<T, E> = Ok(value: T) | Err(error: E)
}
