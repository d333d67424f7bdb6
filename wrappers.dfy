/** Success/Failure results for the operations that can fail. */
module Wrappers {

  datatype Result<+T, +E> = Success(value: T) | Failure(error: E)
}
