/** The exceptions the results-file utilities raise, and the wrappers that carry them. */
module Outcomes {

  /** The Python exception classes the modelled code can end in. */
  datatype Error = IndexError | ValueError | AssertionError | FileNotFoundError

  datatype Option<+T> = None | Some(value: T)

  /** A value, or the exception raised instead of returning it. */
  datatype Result<+T> = Ok(value: T) | Err(error: Error)

  /** Completion of a procedure that returns nothing: normal return or an exception. */
  datatype Outcome = Pass | Fail(error: Error)
}
