/** Optional values and success/failure results shared by the planner modules. */
module Wrappers {

  /** A value that may be absent (JavaScript `undefined`). */
  datatype Option<T> = None | Some(value: T)

  /** Either a computed value or an error description. */
  datatype Result<T, E> = Success(value: T) | Failure(error: E)
}
