/** Optional values and error results shared by every module of the model. */
module Wrappers {

  datatype Option<T> = None | Some(value: T)

  /** The outcome of an operation whose failure path the source takes
      (an assertion that would fire, an exception, an early `return false`). */
  datatype Result<T, E> = Ok(value: T) | Err(error: E)
}
