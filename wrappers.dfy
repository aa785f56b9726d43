/** Failure-carrying results. The fitter reports its error conditions as
    Python exceptions; the model returns them as values so that every
    error path can be stated in a contract. */
module Wrappers {

  datatype Option<+T> = None | Some(value: T)

  /** The exception classes the modelled code raises (or lets escape). */
  datatype Failure =
    | RuntimeError(msg: string)
    | ValueError(msg: string)
    | NameError(name: string)
    | ArithmeticError(msg: string)   // ZeroDivisionError, OverflowError
    | IndexError(msg: string)
    | AttributeError(msg: string)
    | TypeError(msg: string)

  datatype Result<+T> = Ok(value: T) | Err(failure: Failure) {
    predicate IsFailure() { Err? }

    function PropagateFailure<U>(): Result<U>
      requires Err?
    {
      Err(failure)
    }

    function Extract(): T
      requires Ok?
    {
      value
    }
  }
}
