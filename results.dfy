/** Failure values for the exceptions the card layer raises. */
module Results {

  /** The Python exceptions the modelled code can raise. */
  datatype Error =
    | IndexError(message: string)      // an exhausted deck (deck.py:54)
    | AttributeError(message: string)  // a blocked or missing attribute (card.py:59-60)

  /** A value, or the exception raised instead of returning it. */
  datatype Result<+T> = Ok(value: T) | Err(error: Error)

  /** Completion of a procedure that returns nothing, or the exception it raised. */
  datatype Outcome = Pass | Fail(error: Error)
}
