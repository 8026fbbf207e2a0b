/** Optional values, the Python exceptions the prompt pipeline can raise, and a
    failure-compatible Result so that `:-` propagates the first exception raised. */
module Results {

  datatype Option<+T> = None | Some(value: T)

  /** The exceptions the modelled code raises. */
  datatype Error =
    | KeyError                  // a missing dict key or dataset column
    | TypeError                 // `+` on a non-str operand, `join` over non-strings, an unhashable key
    | IndexError                // `[0]` of an empty list or string
    | ValueError                // numpy refuses to draw the requested sample
    | AttributeError(attr: string)  // an attribute that `__init__` never assigned

  datatype Result<+T> = Ok(value: T) | Err(error: Error) {

    predicate IsFailure() {
      Err?
    }

    function PropagateFailure<U>(): Result<U>
      requires Err?
    {
      Err(error)
    }

    function Extract(): T
      requires Ok?
    {
      value
    }
  }
}
