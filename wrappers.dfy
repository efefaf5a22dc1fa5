/** Option and Result values, used where Python returns None or raises. */
module Wrappers {
  datatype Option<T> = None | Some(value: T)

  /** `Err` carries the name of what went wrong (an exception class or a missing attribute). */
  datatype Result<T> = Ok(value: T) | Err(error: string)
}
