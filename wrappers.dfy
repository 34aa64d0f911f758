/** Option and Result values used for Python's `None` and for raised exceptions. */
module Wrappers {

  datatype Option<+T> = None | Some(value: T)

  /** `Ok(v)` is a normal return, `Err(e)` a raised exception. */
  datatype Result<+T, +E> = Ok(value: T) | Err(error: E)
}
