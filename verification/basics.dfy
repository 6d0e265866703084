/** Small failure-carrying datatypes shared by the rest of the model. */
module Basics {

  /** A value that may be absent; stands for a JavaScript field that may be `null`. */
  datatype Option<+T> = None | Some(value: T)

  /** The outcome of an operation that either succeeds or throws. */
  datatype Result<+T, +E> = Success(value: T) | Failure(error: E)
}
