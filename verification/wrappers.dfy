/** Failure-carrying results for the operations of the autoencoder engine.
    Python raises exceptions; the model returns `Err(kind)` instead. */
module Wrappers {

  datatype Option<+T> = None | Some(value: T)

  /** The Python exception classes the engine raises on its own
      (ValueError, TypeError) or lets escape from the language and
      libraries it calls (KeyError, AttributeError, ...). */
  datatype PyError =
    | ValueError
    | TypeError
    | KeyError
    | AttributeError
    | UnboundLocalError
    | ZeroDivisionError
    | IndexError
    | RuntimeError

  datatype Result<+T> = Ok(value: T) | Err(error: PyError) {
    predicate IsFailure() { Err? }

    function PropagateFailure<U>(): Result<U>
      requires Err?
    {
      Err(error)
    }

    function Extract(): T
      requires Ok?
    {
      value
    }
  }
}
