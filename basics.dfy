/** Option and Result values shared by the other modules. */
module Basics {

  datatype Option<T> = None | Some(value: T)

  /** The settled value of a promise: fulfilled with a value or rejected with a reason. */
  datatype Result<T, E> = Ok(value: T) | Err(error: E)
}
