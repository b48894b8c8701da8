/** Option and Result, the two failure-carrying datatypes the rest of the model uses. */
module Wrappers {

  /** A value that may be absent: JavaScript's `undefined` for an optional field. */
  datatype Option<+T> = None | Some(value: T)

  /** The outcome of a call that may reject (a promise that rejects, a thrown error). */
  datatype Result<+T, +E> = Ok(value: T) | Err(error: E)
}
