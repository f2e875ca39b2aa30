/** Optional values and success/error results used across the model. */
module Wrappers {

  /** An optional value; `None` stands for a missing or undecodable value. */
  datatype Option<+T> = None | Some(value: T)

  /** Either a value or an error. */
  datatype Result<+R, +E> = Success(value: R) | Failure(error: E)
}
