/** Result, option and error types shared by every module of the model.
    The error constructors stand for the Python exception classes that the
    drivers and the environment code raise or catch. */
module Common {

  datatype Option<T> = None | Some(value: T)

  /** The exception classes that matter to the modelled code. VisaIOError is
      what pyvisa raises on an I/O failure or a timeout. */
  datatype Error =
    | ValueError
    | TypeError
    | KeyError
    | IndexError
    | AttributeError
    | IOError
    | VisaIOError
    | ConnectionError
    | ModuleNotFoundError
    | OtherError(name: string)

  datatype Result<T> = Ok(value: T) | Err(error: Error)
  {
    predicate IsFailure() { Err? }

    function PropagateFailure<U>(): Result<U>
      requires Err?
    {
      Err(error)
    }

    function Extract(): T
      requires Ok?
    {
      value
    }
  }

  /** Result of an operation that returns None in Python. */
  datatype Outcome = Pass | Fail(error: Error)
  {
    predicate IsFailure() { Fail? }

    function PropagateFailure(): Outcome
      requires Fail?
    {
      this
    }
  }
}
