/** Optional values and the outcome of a call that may raise a Python exception. */
module Wrappers {

  datatype Option<+T> = None | Some(value: T)

  /** The Python exception classes the modelled code raises or catches. */
  datatype ErrorKind =
    | ValueError
    | TypeError
    | AttributeError
    | JsonDecodeError
    | FileNotFoundError
    | IsADirectoryError
    | NotADirectoryError
    | EofError
    | ApiError

  datatype Error = Error(kind: ErrorKind, message: string)

  /** A call either returns a value or raises an exception. */
  datatype Outcome<+T> = Value(value: T) | Raise(error: Error)
}
