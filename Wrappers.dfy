/** Option and Result: the absent values (`None`) and caught exceptions of the source. */
module Wrappers {

  datatype Option<+T> = None | Some(value: T)

  /** `Err` carries the text of an exception the source raises or catches. */
  datatype Result<+T, +E> = Ok(value: T) | Err(error: E)
}
