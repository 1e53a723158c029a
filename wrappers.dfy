/** Option and Result, the two failure-carrying shapes the rest of the model uses
    for Python's None, JavaScript's null/undefined and thrown exceptions. */
module Wrappers {

  datatype Option<+T> = None | Some(value: T)

  datatype Result<+T, +E> = Ok(value: T) | Err(error: E)
}
