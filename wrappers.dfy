/** Option and Result values for the engine's optional fields and its thrown errors. */
module Wrappers {

  datatype Option<+T> = None | Some(value: T)

  /** The outcome of an operation that either succeeds with a value or throws an error. */
  datatype Result<+T, +E> = Ok(value: T) | Err(error: E)
}
