/** Option and Result values shared by the other modules. A Python function
    that raises `ValueError(m)` is modelled as returning `Err(m)`. */
module Wrappers {

  datatype Option<+T> = None | Some(value: T)

  datatype Result<+T, +E> = Ok(value: T) | Err(error: E)
}
