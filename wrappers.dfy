/** Option and Result: the absent value and the thrown error of the modelled code. */
module Wrappers {

  /** A value that may be missing (`null` or `undefined` where the source reads an argument). */
  datatype Option<+T> = None | Some(value: T)

  /** The outcome of an operation that either produces a value or throws an error. */
  datatype Result<+R, +E> = Success(value: R) | Failure(error: E)
}
