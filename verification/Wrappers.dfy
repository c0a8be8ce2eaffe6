/** Failure-free containers shared by every module of the model. */
module Wrappers {

  /** The source's `Option<T>`. */
  datatype Option<+T> = None | Some(value: T)

  /** The source's `AwoResult<T>`; `E` is the information the model keeps about an error. */
  datatype Result<+T, +E> = Success(value: T) | Failure(error: E)
}
