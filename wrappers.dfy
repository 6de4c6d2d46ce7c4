/** Failure-carrying results shared by the whole model. */
module Wrappers {

  datatype Option<T> = None | Some(value: T)

  /** The value of a Python or C++ operation that either returns or raises. */
  datatype Result<T, E> = Ok(value: T) | Err(error: E)
}
