/** Option and Result: Java's nullable references and thrown configuration errors. */
module Wrappers {

  /** `None` stands for a Java `null`. */
  datatype Option<+T> = None | Some(value: T)

  /** The result of a step that either produces a value or throws. */
  datatype Result<+R, +E> = Success(value: R) | Failure(error: E)
}
