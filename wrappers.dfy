/** Option and Result values, and the exceptions the modelled program can raise. */
module Wrappers {

  /** A byte of a file's contents. */
  newtype byte = x: int | 0 <= x < 256

  datatype Option<+T> = None | Some(value: T)

  datatype Result<+T> = Ok(value: T) | Err(error: Error)

  /** The outcome of an `assert condition, message` statement in a check. */
  datatype Verdict = Pass | AssertionFailure(message: string)

  /** The Python exceptions raised by the modelled code, named after their classes. */
  datatype Error =
    | ValueError(message: string)
    | FileNotFoundError(message: string)
    | IndexError
    | UnicodeDecodeError
    | UnpicklingError
    | AttributeError
    | OSError
    | UsageError(message: string)
    | UnavailableInput(reference: string)
}
