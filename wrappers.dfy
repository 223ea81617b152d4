/** Optional values and store replies. */
module Wrappers {

  /** A value that may be absent (`null` / `undefined` in the client). */
  datatype Option<+T> = None | Some(value: T)

  /** A reply of the hosted store: either its data or its error. */
  datatype Result<+T, +E> = Success(value: T) | Failure(error: E)
}
