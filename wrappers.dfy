/** Option and Result values shared by the cart modules. */
module Wrappers {

  /** A value that may be absent: the storage key's content, the context. */
  datatype Option<+T> = None | Some(value: T)

  /** The outcome of an operation that may throw, such as `useCart`: its value or the error message. */
  datatype Result<+T> = Ok(value: T) | Err(message: string)
}
