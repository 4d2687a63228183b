/** Optional values and success/failure results, shared by every module of the model. */
module Wrappers {

  /** A value that may be absent (`undefined` / `null` in the client). */
  datatype Option<+T> = None | Some(value: T)

  /** The outcome of an operation that can fail with a message (a thrown `Error`). */
  datatype Result<+T> = Success(value: T) | Failure(error: string)
}
