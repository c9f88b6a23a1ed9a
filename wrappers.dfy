/** Option and Result types shared by the whole model, and the Python
    exceptions that the modelled code can raise. */
module Wrappers {

  datatype Option<+T> = None | Some(value: T) {
    function GetOr(default: T): T {
      match this
      case Some(v) => v
      case None => default
    }
  }

  /** The exceptions the modelled Python code raises; the string is the
      exception's message where the source builds one. */
  datatype Error =
    | ValueError(message: string)
    | TypeError(message: string)
    | KeyError(message: string)
    | NameError(message: string)
    | AttributeError(message: string)
    | AssertionError(message: string)
    | ZeroDivisionError(message: string)
    | NotImplementedError

  /** Either a value or the exception raised while computing it. */
  datatype Result<+T> = Ok(value: T) | Err(error: Error) {
    predicate IsFailure() {
      Err?
    }

    function PropagateFailure<U>(): Result<U>
      requires Err?
    {
      Err(error)
    }

    function Extract(): T
      requires Ok?
    {
      value
    }
  }
}
