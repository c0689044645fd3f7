/** Option and Result, and the exceptions the modelled Python code raises. */
module Wrappers {

  datatype Option<+T> = None | Some(value: T)

  datatype Result<+T, +E> = Ok(value: T) | Err(error: E) {
    predicate IsFailure() { Err? }
    function PropagateFailure<U>(): Result<U, E>
      requires Err?
    {
      Err(error)
    }
    function Extract(): T
      requires Ok?
    {
      value
    }
  }

  /** The Python exceptions raised on the modelled paths. */
  datatype Exc =
    | ValueError(msg: string)
    | KeyError(key: string)
    | AttributeError(name: string)
    | TypeError(msg: string)
    | IndexError
    | NameError(name: string)
    | LoadItemException(msg: string)
    | LinkExpiredException
    | StopCurrentTaskExeption(msg: string)
    | NoMP3ContentError(msg: string)
    | FileExistsError(path: string)
    | IsADirectoryError(path: string)
    | StopIteration
    /** The scripted network has no further answer (see Client.Session). */
    | NetworkScriptExhausted
    /** The recursion bound of a generator model was reached. */
    | OutOfFuel

  type Outcome<T> = Result<T, Exc>
}
