/** Option and Result, for the null pointers of the frame structure and for rejected frames. */
module Wrappers {

  datatype Option<T> = None | Some(value: T)

  datatype Result<T, E> = Ok(value: T) | Err(error: E)
}
