/** The failures the wrapper reports to its caller, and the usual carriers for them. */
module Outcomes {

  datatype Option<+T> = None | Some(value: T)

  /** The exceptions of the wrapper API: a null argument or an argument that is not acceptable. */
  datatype Error =
    | ArgumentNull(paramName: string)   // ArgumentNullException, carrying the parameter's name
    | Argument(message: string)         // ArgumentException, carrying its message

  /** A value, or the exception thrown instead of producing it. */
  datatype Result<+T> = Ok(value: T) | Err(error: Error)

  /** A void call that either completes or throws. */
  datatype Outcome = Pass | Fail(error: Error)
}
