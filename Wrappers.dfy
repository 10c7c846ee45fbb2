/** Optional values and success/failure results, standing for the
    `T | null`, `T | undefined` and thrown-exception shapes of the program. */
module Wrappers {

  datatype Option<+T> = None | Some(value: T)

  datatype Result<+R, +E> = Success(value: R) | Failure(error: E)
}
