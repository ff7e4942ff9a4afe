/** Option and Result types, and the Python exception kinds the modelled code raises. */
module Wrappers {

  datatype Option<+T> = None | Some(value: T)

  /** The exception classes raised by the modelled functions (messages are not modelled). */
  datatype Error =
    | TypeError
    | ValueError
    | AttributeError
    | IndexError
    | KeyError
    | AssertionError
    | DuplicateEntryError
    | FileNotFoundError

  datatype Result<+T> = Ok(value: T) | Err(error: Error) {
    predicate IsFailure() { Err? }

    function PropagateFailure<U>(): Result<U>
      requires Err?
    {
      Err(error)
    }

    function Extract(): T
      requires Ok?
    {
      value
    }
  }

  /** A result that carries no value: success, or the exception raised. */
  datatype Outcome = Pass | Fail(error: Error)
}
