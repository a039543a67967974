/** Option and Result, used for Java's null and for exceptions. */
module Wrappers {

  /** `None` stands for Java's `null` where the source returns a reference that may be absent. */
  datatype Option<+T> = None | Some(value: T)

  /** `Failure` stands for an exception thrown by the operation. */
  datatype Result<+R, +E> = Success(value: R) | Failure(error: E)
}
