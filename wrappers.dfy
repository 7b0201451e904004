/** Values standing for Python's "may be None" and "may raise". */
module Wrappers {

  /** A Python value that may be `None`. */
  datatype Option<+T> = None | Some(value: T)

  /** The outcome of a Python call that either returns or raises an exception;
      a raised exception is kept only as its text, `str(e)`. */
  datatype Attempt<+T> = Ok(value: T) | Raised(message: string)
}
