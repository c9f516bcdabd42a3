/** Option and Result, the shapes used for JavaScript's `null` and for
    operations that either produce a value or throw. */
module Wrappers {

  datatype Option<+T> = None | Some(value: T)

  datatype Result<+T, +E> = Ok(value: T) | Err(error: E)
}
