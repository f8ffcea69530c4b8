/** Option and Result, the stock failure-carrying datatypes used throughout the model. */
module Wrappers {

  datatype Option<+T> = None | Some(value: T)

  /** The outcome of an operation that can raise: its value, or the error it raises. */
  datatype Result<+R, +E> = Ok(value: R) | Err(error: E)
}
