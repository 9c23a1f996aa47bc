/** Option and Result types, and the Python exceptions the core can raise. */
module Wrappers {

  datatype Option<+T> = None | Some(value: T)

  /** The exceptions raised by the modelled code, with the message or key they carry. */
  datatype Error =
    | TypeError(message: string)
    | KeyError(key: string)
    | AttributeError(attribute: string)

  /** A value, or the exception that a Python call raises instead of returning it. */
  datatype Result<+T> = Ok(value: T) | Err(error: Error) {
    predicate IsFailure() { Err? }

    function PropagateFailure<U>(): Result<U>
      requires Err?
    {
      Err(error)
    }

    function Extract(): T
      requires Ok?
    {
      value
    }
  }
}
