/** Failure-carrying results shared by every module of the model.

    Python raises exceptions; the model returns `Err` with the exception's
    class instead, so that every error path of the program stays visible in
    the contracts. */
module Wrappers {

  datatype Option<+T> = None | Some(value: T)

  /** The Python exception classes that the modelled code can raise. */
  datatype Exception =
    | ValueError(message: string)
    | KeyError(key: string)
    | IndexError
    | AttributeError
    | UnboundLocalError(name: string)
    | TypeError(message: string)
    | MdsplusError(kind: MdsError)

  /** The MDSplus exception classes the data-retrieval helpers name. */
  datatype MdsError = MdsIpException | TreeNODATA | TreeNNF | TreeFOPENR | TdiMISS_ARG

  datatype Result<+T> = Ok(value: T) | Err(error: Exception) {
    predicate IsFailure() { Err? }

    function PropagateFailure<U>(): Result<U>
      requires Err?
    {
      Err(error)
    }

    function Extract(): T
      requires Ok?
    {
      value
    }
  }
}
