/** Option and Result: absence (PHP's `null`) and failure (a thrown
    `InvalidArgumentException`) as values. */
module Wrappers {

  datatype Option<+T> = None | Some(value: T)

  datatype Result<+R, +E> = Success(value: R) | Failure(error: E)
}
