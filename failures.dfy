/** How a run of dejavu.py ends early: either a `sys.exit()` after a diagnostic,
    or a Python exception that nothing in the script catches. */
module Failures {

  /** The exceptions the core can raise on malformed input. */
  datatype Exception = AttributeError | TypeError | IndexError | KeyError

  /** The reason each `sys.exit()` call reports, with the construct its message names. */
  datatype Reason =
    | BadKeyword(keyword: string)
    | BadCustomValue(keyword: string)
    | BadParamsFields
    | BadPathVariable(attr: string)
    | NoPathOptions(attr: string)
    | UndefinedKeyword(option: string)
    | BadEndpointFields
    | NonStringEndpoint
    | UnsupportedMethod(given: string)
    | BaselineRejected(legacyStatus: int, migratedStatus: int)

  datatype Failure = Exit(reason: Reason) | Raise(exception: Exception)

  /** The result of a check that produces no value. */
  datatype Outcome = Pass | Fail(failure: Failure)

  /** The result of a step that produces a value or ends the run. */
  datatype Result<T> = Ok(value: T) | Err(failure: Failure) {
    predicate IsFailure() { Err? }
    function PropagateFailure<U>(): Result<U>
      requires Err?
    {
      Err(failure)
    }
    function Extract(): T
      requires Ok?
    {
      value
    }
  }
}
