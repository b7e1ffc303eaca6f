/** Failure-carrying datatypes used at the boundary of the model. */
module Wrappers {

  /** A value that may be absent; `None` stands for a JavaScript `null`. */
  datatype Option<+T> = None | Some(value: T)

  /** Either a value or the error that would have been thrown instead. */
  datatype Result<+T, +E> = Success(value: T) | Failure(error: E)

  /** The payload of a thrown JavaScript `Error`: its message text. */
  datatype Error = Error(message: string)
}
