/** Failure-carrying result types shared by the strategy modules. */
module Wrappers {

  datatype Option<+T> = None | Some(value: T)

  /** Success carries the value; Failure carries what Go code signals with a panic. */
  datatype Result<+T, +E> = Success(value: T) | Failure(error: E)
}
