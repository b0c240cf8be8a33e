/** Option and Result, the two failure-carrying datatypes the model uses. */
module Wrappers {

  datatype Option<+T> = None | Some(value: T)

  /** A Python call that either returns a value or raises the named exception. */
  datatype Result<+T> = Ok(value: T) | Err(exception: string)
}
