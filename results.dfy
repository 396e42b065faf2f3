/** Option and Result, the two failure-carrying shapes used throughout the model. */
module Results {

  datatype Option<+T> = None | Some(value: T)

  /** A computation that either produces a value or fails with a message (a thrown Error). */
  datatype Result<+T> = Ok(value: T) | Err(error: string)
}
