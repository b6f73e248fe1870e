/** Option and Result: the shapes used for Python's `None` and for raised exceptions. */
module Wrappers {

  datatype Option<+T> = None | Some(value: T)

  /** `Err` stands for an exception that the modelled code raises. */
  datatype Result<+T, +E> = Ok(value: T) | Err(error: E)
}
