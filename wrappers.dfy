/** The optional and the fallible results used across the model. */
module Wrappers {

  /** An optional value: `null` in the source becomes `None`. */
  datatype Option<+T> = None | Some(value: T)

  /** The outcome of an operation that can throw: `Err` stands for a thrown exception. */
  datatype Result<+T, +E> = Ok(value: T) | Err(error: E)
}
