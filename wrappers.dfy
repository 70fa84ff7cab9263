/** Small option and result types shared by the model. */
module Wrappers {
  /** A value that may be absent (JavaScript `undefined` or `null`). */
  datatype Option<T> = None | Some(value: T)

  /** The outcome of an operation that can fail (JavaScript `throw` or a rejected promise). */
  datatype Result<T, E> = Ok(value: T) | Err(error: E)
}
