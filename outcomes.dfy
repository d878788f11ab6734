/** Python's exceptions, as values.  Every operation of the model that can
    raise returns one of these wrappers instead of excluding the bad input. */
module Outcomes {

  /** The exceptions the modelled code raises. `Exception(msg)` is a bare
      Python `Exception`. */
  datatype Error =
    | ValueError(msg: string)
    | ZeroDivisionError
    | IndexError
    | Exception(msg: string)

  datatype Option<+T> = None | Some(value: T)

  datatype Result<+T> = Ok(value: T) | Err(error: Error)

  /** The outcome of a call that returns nothing: it completed, or it raised. */
  datatype Outcome = Pass | Fail(error: Error)
}
