/** Small failure-carrying datatypes shared by the other modules. */
module Wrappers {

  /** An optional value: Python's `Optional[T]`, with `None` for absent. */
  datatype Option<+T> = None | Some(value: T)

  /** The outcome of a computation that may raise: a value or the error raised. */
  datatype Result<+T, +E> = Ok(value: T) | Err(error: E)
}
