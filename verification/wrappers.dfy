/** Failure-carrying values used by the rest of the model. */
module Wrappers {

  /** A value that may be absent: Python's `None` or a present value. */
  datatype Option<+T> = None | Some(value: T)

  /** Either a computed value or the error the program raises instead. */
  datatype Result<+R, +E> = Success(value: R) | Failure(error: E)
}
