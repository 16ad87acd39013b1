/** The optional value and the success-or-error result used across the model. */
module Wrappers {

  /** A value that may be absent: a nullable column or a missed lookup. */
  datatype Option<+T> = None | Some(value: T)

  /** The outcome of a store operation that may be refused by the database. */
  datatype Result<+R, +E> = Success(value: R) | Failure(error: E)
}
