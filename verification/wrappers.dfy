/** Small failure-carrying types shared by the modules of this model. */
module Wrappers {

  /** A value that may be absent: `undefined` for an optional argument or an empty slot. */
  datatype Option<+T> = None | Some(value: T)

  /** The outcome of an operation that either returns a value or throws an error. */
  datatype Result<+T, +E> = Ok(value: T) | Err(error: E)
}
