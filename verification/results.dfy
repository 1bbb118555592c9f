/** Option and Result datatypes shared by the modules of the panel-slider model. */
module Results {

  datatype Option<+T> = None | Some(value: T)

  /** The outcome of an operation that can raise: a value, or the message of the thrown Error. */
  datatype Result<+T> = Success(value: T) | Failure(message: string)
}
