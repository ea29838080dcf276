/** Error outcomes of the Python code: the exception a call raises, or the value it returns. */
module Wrappers {
  /** The Python exception classes the modelled code raises. */
  datatype PyError = ValueError | KeyError | TypeError | IndexError | AssertionError | AttributeError | ZeroDivisionError

  datatype Option<T> = None | Some(value: T)

  /** A call that either returns `value` or raises `error`. */
  datatype Result<T> = Ok(value: T) | Err(error: PyError)
}
