/** Option and Result, and the Python exceptions the modelled code can raise. */
module Wrappers {

  datatype Option<+T> = None | Some(value: T) {
    function GetOr(default: T): T {
      match this
      case Some(v) => v
      case None => default
    }
  }

  /** The exceptions of the modelled code, by kind. */
  datatype Error =
    | TypeError            // an operation applied to a value of the wrong type
    | ValueError           // a value of the right type that cannot be converted
    | KeyError(key: string)
    | AttributeError       // e.g. `.get` or `.items()` on something that is not a dict
    | HttpError(status: int)   // requests' raise_for_status
    | JsonDecodeError      // resp.json() on a body that is not JSON
    | ValidationError      // a pydantic model rejected its input

  /** Either a value or the exception that was raised instead. */
  datatype Result<+T> = Ok(value: T) | Err(error: Error) {
    predicate IsFailure() {
      Err?
    }

    function PropagateFailure<U>(): Result<U>
      requires Err?
    {
      Err(error)
    }

    function Extract(): T
      requires Ok?
    {
      value
    }
  }
}
