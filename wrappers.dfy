/** Result and Option wrappers, with the members that `:-` needs, shared by every module of the model. */
module Wrappers {

  /** A value that may be absent (Python's `None`). */
  datatype Option<T> = None | Some(value: T)

  /** The outcome of an operation that either produces a value or raises. */
  datatype Result<T, E> = Ok(value: T) | Err(error: E)
}
