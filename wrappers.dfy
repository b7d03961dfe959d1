/** Option and Result, the two failure-carrying datatypes the rest of the model uses. */
module Wrappers {

  /** `None` stands for JavaScript's `undefined` (or `null`) where the source allows it. */
  datatype Option<+T> = None | Some(value: T)

  /** The outcome of a parse: the parsed value, or an error value. */
  datatype Result<+R, +E> = Success(value: R) | Failure(error: E)
}
