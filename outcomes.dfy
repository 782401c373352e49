/** Failure-compatible wrappers shared by the whole model.  The Java client
    signals every failure with an unchecked exception; here each exception a
    core operation can raise becomes an `Error` value. */
module Outcomes {

  /** The exceptions the core can throw, one constructor per distinct cause. */
  datatype Error =
    | InvalidLocation          // IllegalArgumentException from Location.validateLocation
    | NumOfResultsOutOfRange   // IllegalArgumentException from Search.setNumOfResults
    | EndDateBeforeDate        // IllegalArgumentException: enddate before date
    | EndDateMonthMismatch     // IllegalArgumentException: enddate in another month
    | EndDateYearMismatch      // IllegalArgumentException: enddate in another year
    | StringIndexOutOfBounds   // StringBuffer.deleteCharAt(-1) on an empty buffer

  datatype Option<+T> = None | Some(value: T)

  /** A call that either returns normally or throws. */
  datatype Outcome = Pass | Fail(error: Error)

  /** A call that returns a value or throws. */
  datatype Result<+T> = Ok(value: T) | Err(error: Error)
}
