/** Failure-carrying datatypes shared by the storefront modules. */
module Wrappers {

  /** An optional value, as an optional field or a failed lookup. */
  datatype Option<+T> = None | Some(value: T)

  /** A store call that returns a value or an error message. */
  datatype Result<+R, +E> = Success(value: R) | Failure(error: E)

  /** A store call that returns nothing but may fail. */
  datatype Outcome<+E> = Pass | Fail(error: E)
}
