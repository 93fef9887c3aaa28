/** Option and Result, used for the "no error recorded yet" case and for the
    exception a malformed aggregate failure raises during classification. */
module Wrappers {

  datatype Option<+T> = None | Some(value: T)

  datatype Result<+R, +E> = Ok(value: R) | Err(error: E)
}
