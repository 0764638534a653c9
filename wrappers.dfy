/** Option and Result types, and the Python exceptions the modelled code can raise. */
module Wrappers {

  datatype Option<+T> = None | Some(value: T)

  /** The exceptions that reach the caller of a modelled function. */
  datatype Error =
    | ZeroDivisionError          // float or int division by zero
    | KeyError(key: string)      // dictionary lookup of a missing key
    | IndexError                 // indexing an empty list
    | AttributeError             // `.str` on a DataFrame: a column label held by two columns
    | SystemExit(code: int)      // `sys.exit(code)`

  datatype Result<+T> = Ok(value: T) | Err(error: Error)
}
