/**
 * Option and Result, and the Python exceptions the modelled code can raise.
 * A Python call that raises is modelled as a function or method that returns
 * `Err(e)`; one that returns normally gives `Ok(v)`.
 */
module Common {

  datatype Option<+T> = None | Some(value: T)

  /** The exceptions raised by the modelled code. `ValidationError` carries the
      names of the fields pydantic found missing, in declaration order. */
  datatype PyError =
    | AssertionError
    | ValueError
    | IndexError
    | KeyError
    | JsonDecodeError
    | UnboundLocalError
    | OverflowError
    | AttributeError
    | ValidationError(missing: seq<string>)

  datatype Result<+T> = Ok(value: T) | Err(error: PyError)
}
