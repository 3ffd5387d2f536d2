/** Option and Result: the model's stand-ins for C#'s null and thrown exceptions. */
module Wrappers {

  /** A value or nothing, as for a reference that may be null. */
  datatype Option<+T> = None | Some(value: T)

  /** A value, or the exception an operation throws instead of returning. */
  datatype Result<+R, +E> = Success(value: R) | Failure(error: E)
}
