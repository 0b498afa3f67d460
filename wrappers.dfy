/** Optional values and results with an error, standing in for Java's `null` and exceptions. */
module Wrappers {

  /** A value that may be absent (a `null` reference in the source). */
  datatype Option<+T> = None | Some(value: T)

  /** Either a value or the error the source throws instead of returning one. */
  datatype Result<+R, +E> = Success(value: R) | Failure(error: E)
}
