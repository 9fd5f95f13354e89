/** Option and Result: the absent values and the raised errors of the modelled code. */
module Wrappers {

  datatype Option<+T> = None | Some(value: T)

  /** Ok carries the value the code returns; Err the error it raises or returns instead. */
  datatype Result<+T, +E> = Ok(value: T) | Err(error: E)
}
