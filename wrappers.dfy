/** Failure-carrying values shared by the modules of this project: the Go
    convention of returning `(value, error)` becomes a `Result`, and a bare
    `error` return becomes an `Option` of an error. */
module Wrappers {

  datatype Option<+T> = None | Some(value: T)

  datatype Result<+T, +E> = Success(value: T) | Failure(error: E) {
    predicate IsFailure() {
      Failure?
    }
  }
}
