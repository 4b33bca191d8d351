/** Option and Result values for the lookups and the error paths of the model. */
module Wrappers {

  /** A value that may be missing (`null` / `undefined` in the source). */
  datatype Option<+T> = None | Some(value: T)

  /** The outcome of an operation that either succeeds or rejects with an error. */
  datatype Result<+T, +E> = Ok(value: T) | Err(error: E)
}
