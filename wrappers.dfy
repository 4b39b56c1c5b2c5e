/** Option and Result, used for the optional literal of a token and for the
    scans that the source aborts with a panic. */
module Wrappers {

  datatype Option<+T> = None | Some(value: T)

  datatype Result<+T, +E> = Ok(value: T) | Err(error: E)
}
