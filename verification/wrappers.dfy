/** Option and Result, standing in for NULL pointers and ERR_PTR values. */
module Wrappers {

  /** An optional value: `None` plays the role of a NULL pointer. */
  datatype Option<+T> = None | Some(value: T)

  /** The outcome of a driver call that either yields a value or an error code. */
  datatype Result<+T, +E> = Success(value: T) | Failure(error: E)
}
