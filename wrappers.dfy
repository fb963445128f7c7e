/** Optional values and results with an error, used where the source has an
    `undefined` value or throws. */
module Wrappers {

  /** A value that may be absent, as a JavaScript `let` binding that is still `undefined`. */
  datatype Option<+T> = None | Some(value: T)

  /** The value of an operation that either returns or throws `error`. */
  datatype Result<+R, +E> = Success(value: R) | Failure(error: E)
}
