/** Result, used for the model's error paths. */
module Wrappers {

  datatype Result<+T, +E> = Success(value: T) | Failure(error: E)
}
