/** Option and Result, used for an absent playlist file and for the
    "no input" exit of the command line front end. */
module Wrappers {

  datatype Option<+T> = None | Some(value: T)

  datatype Result<+T, +E> = Ok(value: T) | Err(error: E)
}
