/** Option and result types for the errors the wiring raises, which the source throws as exceptions. */
module Wrappers {

  datatype Option<T> = None | Some(value: T)

  /** A computation that either yields a value or fails with an error. */
  datatype Result<R, E> = Success(value: R) | Failure(error: E)

  /** A computation that yields no value: it either passes or fails with an error. */
  datatype Outcome<E> = Pass | Fail(error: E)
}
