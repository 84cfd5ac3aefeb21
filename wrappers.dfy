/** The Option and Result datatypes shared by the other modules. */
module Wrappers {

  /** A value that may be absent; `None` stands for JavaScript's `undefined`. */
  datatype Option<+T> = None | Some(value: T)

  /** Either a computed value or an error description. */
  datatype Result<+R, +E> = Success(value: R) | Failure(error: E)
}
