/** Option and Result, as the rest of the model uses them. */
module Wrappers {

  /** A value that may be absent: Python's `None` or a present value. */
  datatype Option<+T> = None | Some(value: T)

  /** The value of a computation or the error it raised. */
  datatype Result<+T, +E> = Ok(value: T) | Err(error: E)
}
