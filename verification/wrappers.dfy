/** Optional values and results, standing in for the `T | null` fields and the
    validation outcomes of the application. */
module Wrappers {

  /** A value that may be absent (`null` in the application). */
  datatype Option<+T> = None | Some(value: T)

  /** Either a value or a list of errors. */
  datatype Result<+R, +E> = Success(value: R) | Failure(error: E)
}
