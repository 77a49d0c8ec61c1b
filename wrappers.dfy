/** Option and Result values, used for lookups that may find nothing and for
    operations that may raise an error. */
module Wrappers {

  /** A value that may be missing (`Nothing` plays the part of Ruby's nil). */
  datatype Option<+T> = Nothing | Some(value: T)

  /** Either a value or the error the operation raised. */
  datatype Result<+T, +E> = Ok(value: T) | Err(error: E)
}
