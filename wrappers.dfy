/** Option and Result, the two failure-carrying shapes used throughout the model:
    Option for a dictionary key that may be missing, Result for a call that may raise. */
module Wrappers {

  datatype Option<+T> = None | Some(value: T)

  datatype Result<+T, +E> = Ok(value: T) | Err(error: E)
}
