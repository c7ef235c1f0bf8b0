/** Optional values, raised exceptions and the exception classes the system raises. */
module Wrappers {

  datatype Option<+T> = None | Some(value: T)

  /** The Python exception classes that appear in the modelled code. */
  datatype Error =
    | ValueError(message: string)
    | KeyError(key: string)
    | IndexError(message: string)
    | TypeError(message: string)
    | NotImplementedError(message: string)
    | FileNotFoundError(path: string)
    | JujuSpellError(message: string)
    | JujuError(message: string)
    | OtherError(message: string)

  /** What a Python call does: return a value or raise an exception. */
  datatype Outcome<+T> = Returned(value: T) | Raised(error: Error)

  type Unit = ()
}
