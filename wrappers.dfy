/** Option and Result values for absent fields and error returns. */
module Wrappers {

  datatype Option<+T> = None | Some(value: T)

  /** Either a value or the error text the firmware would record. */
  datatype Result<+T, +E> = Ok(value: T) | Err(error: E)
}
