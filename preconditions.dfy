/**
 * `Preconditions.checkArgument`: the one failure rule the core uses to reject bad
 * arguments. Both overloads return normally when the argument holds and throw an
 * `AerogelException` otherwise.
 */
module Preconditions {
  import opened Failures

  /** `checkArgument(argument, errorMessage)`. */
  function CheckArgument(argument: bool, errorMessage: string): (r: Outcome)
    ensures r.Pass? <==> argument
    ensures !argument ==> r.error == AerogelException(errorMessage)
  {
    if argument then Pass else Fail(AerogelException(errorMessage))
  }

  /**
   * `checkArgument(argument, errorMessageFormat, args...)`. `format` stands for
   * `String.format`, which may itself reject the format; it is only consulted
   * when the argument is false.
   */
  function CheckArgumentFormat<A>(
    argument: bool,
    errorMessageFormat: string,
    args: seq<A>,
    format: (string, seq<A>) -> Result<string>
  ): (r: Outcome)
    ensures argument ==> r == Pass
    ensures !argument && format(errorMessageFormat, args).Ok? ==>
      r == Fail(AerogelException(format(errorMessageFormat, args).value))
    ensures !argument && format(errorMessageFormat, args).Err? ==>
      r == Fail(format(errorMessageFormat, args).error)
  {
    if argument then Pass
    else
      match format(errorMessageFormat, args)
      case Ok(message) => Fail(AerogelException(message))
      case Err(e) => Fail(e)
  }

  /**
   * The format overload with a formatter that never fails agrees with the plain
   * overload applied to the formatted message; with a true argument the two agree
   * whatever the formatter does.
   */
  lemma FormatOverloadAgreesWithPlain<A>(
    argument: bool,
    errorMessageFormat: string,
    args: seq<A>,
    format: (string, seq<A>) -> Result<string>
  )
    requires !argument ==> format(errorMessageFormat, args).Ok?
    ensures CheckArgumentFormat(argument, errorMessageFormat, args, format) ==
      CheckArgument(argument, if argument then errorMessageFormat else format(errorMessageFormat, args).value)
  {
  }
}
