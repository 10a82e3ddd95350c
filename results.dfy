/** Failure-carrying wrappers shared by the modules of this project. */
module Results {

  /** A value that may be absent (JavaScript `undefined`/`null`, or a thrown read). */
  datatype Option<+T> = None | Some(value: T)

  /** The outcome of an operation that can fail with an error value. */
  datatype Result<+T, +E> = Ok(value: T) | Err(error: E)
}
