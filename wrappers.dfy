/** Option and Result, used for the values the Python code leaves as None and
    for the exceptions it raises or catches. */
module Wrappers {

  datatype Option<T> = None | Some(value: T)

  /** `Err` carries the text `str(e)` of the exception that was raised. */
  datatype Result<T, E> = Ok(value: T) | Err(error: E)
}
