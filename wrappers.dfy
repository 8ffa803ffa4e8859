/** Option and Result values used for the program's failing operations
    (a Python exception becomes an error value). */
module Wrappers {

  datatype Option<+T> = None | Some(value: T)

  datatype Result<+R, +E> = Ok(value: R) | Err(error: E)
}
