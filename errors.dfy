/** Python exceptions as values. An operation that can raise returns a
    `Result`; the error records the exception class and the names (keys,
    sections, variables) that its message mentions. */
module Errors {

  datatype ErrorKind = KeyError | TypeError | ValueError | AttributeError | ImportError

  datatype Error = Error(kind: ErrorKind, names: seq<string>)

  datatype Option<+T> = None | Some(value: T)

  datatype Result<+T> = Ok(value: T) | Err(error: Error) {
    predicate IsFailure() {
      Err?
    }

    function PropagateFailure<U>(): Result<U>
      requires Err?
    {
      Err(error)
    }

    function Extract(): T
      requires Ok?
    {
      value
    }
  }

  /** An exception of the given class whose message names nothing in particular. */
  function Raise<T>(kind: ErrorKind): Result<T> {
    Err(Error(kind, []))
  }
}
