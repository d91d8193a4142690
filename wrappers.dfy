/** Option and Result values used where the Python code returns None or raises. */
module Wrappers {

  datatype Option<+T> = None | Some(value: T)

  /** The exceptions the modelled Python code can raise. */
  datatype Error = ValueError | TypeError | IndexError | KeyError

  datatype Result<+T> = Success(value: T) | Failure(error: Error)
}
