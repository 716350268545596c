/**
 * Failure-carrying values shared by the whole model. The Java code signals
 * failure by throwing; here every operation that can throw returns one of
 * these instead, so that the error paths are part of each contract.
 */
module Failures {

  /** The exceptions the modelled code raises or lets through. */
  datatype Error =
    /** `AerogelException.forMessage(message)` */
    | AerogelException(message: string)
    /** `new AssertionError()` on a branch the authors considered unreachable */
    | AssertionError
    /** `java.util.IllegalFormatException` raised by `String.format` */
    | IllegalFormat(format: string)
    /** an exception raised by code outside the core (a constructor body, a nested resolution, a lookup) */
    | Raised(description: string)

  datatype Option<+T> = None | Some(value: T)

  datatype Result<+T> = Ok(value: T) | Err(error: Error)

  /** The outcome of a check that returns nothing on success. */
  datatype Outcome = Pass | Fail(error: Error)
}
