/** Option and Result, the failure-carrying values every module of the model uses. */
module Wrappers {

  datatype Option<+T> = None | Some(value: T)

  /** The outcome of an operation that either returns a value or raises. */
  datatype Result<+R, +E> = Ok(value: R) | Err(error: E)
}
