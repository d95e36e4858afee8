/** Optional values, the Python exceptions the core raises, and a
    failure-compatible Result that carries them. */
module Wrappers {

  datatype Option<+T> = None | Some(value: T)

  /** The exceptions raised by the core: a ValueError with its message, or
      the KeyError pandas raises for a column a table does not have. */
  datatype Error = ValueError(message: string) | KeyError(key: string)

  datatype Result<+T> = Ok(value: T) | Err(error: Error) {
    predicate IsFailure() { Err? }

    function PropagateFailure<U>(): Result<U>
      requires Err?
    {
      Err(error)
    }

    function Extract(): T
      requires Ok?
    {
      value
    }
  }
}
