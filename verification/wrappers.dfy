/** Option and result types shared by the model. */
module Wrappers {

  /** An optional value: a lookup that may find nothing, a parse that may fail. */
  datatype Option<+T> = None | Some(value: T)

  /** Either a value or the exception that was raised instead. */
  datatype Result<+R, +E> = Ok(value: R) | Err(error: E)
}
