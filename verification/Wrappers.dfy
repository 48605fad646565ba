// Option and Result: a missing database value or argument, and a raised exception.
module Wrappers {

  datatype Option<+T> = None | Some(value: T)

  datatype Result<+T, +E> = Ok(value: T) | Raise(error: E)
}
