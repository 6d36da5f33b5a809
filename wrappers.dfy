/** Option and Result, the value-level stand-ins for Python's None and for exceptions. */
module Wrappers {

  datatype Option<+T> = None | Some(value: T)

  datatype Result<+R, +E> = Success(value: R) | Failure(error: E)

  /** Why a harvester run stops: the scripts call `exit(1)` on fatal configuration errors. */
  datatype Exit = Exit(code: int)

  /** An uncaught Python exception that aborts the whole pass. */
  datatype Crash =
    | KeyError(key: string)
    | IndexError(index: int)
    | TypeError
    | ValueError
    | AttributeError
}
