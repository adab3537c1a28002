/** The Option and Result datatypes of the pager model. */
module Wrappers {

  /** An optional value: a Go pointer or interface that may be nil. */
  datatype Option<+T> = None | Some(value: T)

  /** A value or an error: the `(value, error)` pair that Go functions return. */
  datatype Result<+T, +E> = Ok(value: T) | Err(error: E)
}
