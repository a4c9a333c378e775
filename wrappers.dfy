/** Failure-carrying results, and the exceptions the modelled code raises. */
module Wrappers {

  /** Python's `None` or a value. */
  datatype Option<+T> = None | Some(value: T)

  /** The kinds of Python exception raised by the modelled code. A `ValueError`
      raised by the repository itself carries its message. */
  datatype Error =
    | ValueError(message: string)
    | IndexError
    | TypeError
    | ZeroDivisionError

  /** The value an operation returns, or the exception it raises. */
  datatype Result<+T> = Ok(value: T) | Err(error: Error)

  /** Completion of an operation that returns nothing, or the exception it raises. */
  datatype Outcome = Pass | Fail(error: Error)
}
