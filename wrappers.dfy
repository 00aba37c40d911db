/** Option and Result, and the Python exceptions the modelled code can raise. */
module Wrappers {

  datatype Option<+T> = None | Some(value: T) {
    function GetOr(default: T): T {
      match this
      case Some(v) => v
      case None => default
    }
  }

  /** A Python operation either returns a value or raises an exception. */
  datatype Result<+T, +E> = Ok(value: T) | Err(error: E) {
    predicate IsFailure() {
      Err?
    }

    function PropagateFailure<U>(): Result<U, E>
      requires Err?
    {
      Err(error)
    }

    function Extract(): T
      requires Ok?
    {
      value
    }
  }

  /** The exceptions the modelled Python code can raise on malformed data. */
  datatype PyError =
    | KeyError(key: string)        // `d[key]` on a dict without `key`
    | TypeError                    // subscripting, slicing, `len`, `<` or `+` on the wrong type
    | AttributeError(attr: string) // a method such as `get` on a value that is not a dict
}
