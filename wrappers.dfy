/** Option and Result, the two failure-carrying datatypes the model uses
    for JavaScript's null and for thrown errors. */
module Wrappers {

  datatype Option<+T> = None | Some(value: T)

  datatype Result<+T, +E> = Ok(value: T) | Err(error: E)
}
