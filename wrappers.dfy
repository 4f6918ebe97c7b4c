/** Optional values, results and the Python exceptions the model lets escape. */
module Wrappers {

  datatype Option<+T> = None | Some(value: T)

  /** A value, or the exception Python would raise instead of returning it. */
  datatype Result<+T> = Ok(value: T) | Err(error: Exception)

  /** The outcome of a call that returns nothing in Python: it either returns or raises. */
  datatype Outcome = Pass | Fail(error: Exception)

  /** The Python exceptions that can leave the modelled code. */
  datatype Exception =
    | KeyError
    | ValueError(message: string)
    | OverflowError(message: string)
}
