/** Optional values and results with an error message. */
module Wrappers {

  datatype Option<T> = None | Some(value: T)

  datatype Result<T> = Success(value: T) | Failure(error: string) {
    predicate IsFailure() { Failure? }
  }
}
