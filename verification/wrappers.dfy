/** Small failure-carrying datatypes shared by the two components. */
module Wrappers {

  /** A value that may be absent: a missing storage key, a null element. */
  datatype Option<+T> = None | Some(value: T)

  /** The outcome of an operation that can throw. */
  datatype Result<+T> = Ok(value: T) | Err(message: string)
}
