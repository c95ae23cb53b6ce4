/** Option and Result, the shapes the model uses for JavaScript's
    null/undefined and for actions that return an error message. */
module Wrappers {

  datatype Option<+T> = None | Some(value: T)

  datatype Result<+T, +E> = Ok(value: T) | Err(error: E)
}
