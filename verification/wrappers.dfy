/** Optional values and results with an error, used by the decoding and loading model. */
module Wrappers {

  /** A value that may be absent: Swift's `Optional`. */
  datatype Option<+T> = None | Some(value: T)

  /** Either a value or the error thrown while computing it. */
  datatype Result<+R, +E> = Success(value: R) | Failure(error: E)
}
