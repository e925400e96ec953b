/** Option and Result, and the ways an ELMcase operation can stop. */
module Wrappers {

  datatype Option<+T> = None | Some(value: T)

  datatype Result<+T, +E> = Ok(value: T) | Err(error: E)

  /** The Python exceptions the modelled code can raise. */
  datatype PyException =
    | IndexError          // list or string index out of range
    | ValueError          // int() of a string that is not an integer
    | AttributeError      // reading an attribute that was never assigned
    | TypeError           // str + int, or a call with too many arguments
    | ZeroDivisionError   // 24 / tstep with tstep == 0
    | UnboundLocalError   // a local read before any assignment

  /** Why an operation stopped: `sys.exit(1)` after a diagnostic, or an uncaught exception. */
  datatype Failure =
    | Exit(message: string)
    | Raised(exception: PyException)

  /**
   * Where a step-by-step update got to: the state it reached and, when it stopped early,
   * why. Python assigns attributes one statement at a time, so a failure leaves the
   * assignments made before it in place.
   */
  datatype Scan<+T> = Scan(state: T, failure: Option<Failure>)
}
