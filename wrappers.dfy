/** Option and Result, the shapes every other module uses for "maybe absent" and "may fail". */
module Wrappers {

  datatype Option<+T> = None | Some(value: T)

  datatype Result<+T, +E> = Ok(value: T) | Err(error: E)
}
