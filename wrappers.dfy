/** Option and Result, the two failure-carrying datatypes the model uses for
    keys that may be absent from a document and for lookups that fail. */
module Wrappers {

  datatype Option<+T> = None | Some(value: T)

  datatype Result<+R, +E> = Ok(value: R) | Err(error: E)
}
