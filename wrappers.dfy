/** Shared result types: Python's `None`, its exceptions and a call's outcome. */
module Wrappers {

  /** A value that may be absent; `None` also stands for Python's `None`. */
  datatype Option<+T> = None | Some(value: T)

  /** The Python exceptions the modelled code can raise. */
  datatype PyError =
    | AttributeError             // an attribute looked up on None (a missing element, an unset field)
    | TypeError                  // None used where a string is needed, or a str method on a list
    | KeyError(key: string)      // a missing dictionary key
    | NameError(name: string)    // a name that was never imported
    | UnboundLocalError(name: string)

  /** A computation that returns a value or raises. */
  datatype Result<+T> = Ok(value: T) | Err(error: PyError)

  /** A handler that returns nothing or raises. */
  datatype Status = Done | Raised(error: PyError)
}
