/** Option and Result: Java's nullable references, Optional and exceptions
    are modelled with these two failure-aware datatypes. */
module Wrappers {

  /** A value that may be absent (`null` or `Optional.empty()` in the source). */
  datatype Option<+T> = None | Some(value: T)

  /** The outcome of an operation that either returns a value or throws. */
  datatype Result<+R, +E> = Success(value: R) | Failure(error: E)
}
