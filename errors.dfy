/**
 * The error kinds of svc/errors.go, and the plain `errors.New` values used
 * elsewhere in the service, as one datatype of Go `error` values.
 */
module Errors {
  import opened Wrappers

  datatype GoError =
    | Plain(msg: string)                                   // errors.New(msg)
    | Validation(msg: string)                              // *ErrValidation
    | ServerError(msg: string, cause: Option<GoError>)     // *ErrServerError; None is a nil cause
    | Conflict(msg: string)                                // *ErrConflict
    | NotFound(msg: string)                                // *ErrNotFound
  {
    /** `Error()`: every kind reports the message it was built with. */
    function Error(): string
    {
      msg
    }

    /** `errors.Unwrap`: the cause of an `*ErrServerError`, nil for every other kind. */
    function Unwrap(): Option<GoError>
    {
      if ServerError? then cause else None
    }
  }

  function NewErrValidation(msg: string): (e: GoError)
    ensures e.Validation? && e.Error() == msg && e.Unwrap() == None
  {
    Validation(msg)
  }

  function NewErrServerError(msg: string, cause: Option<GoError>): (e: GoError)
    ensures e.ServerError? && e.Error() == msg && e.Unwrap() == cause
  {
    ServerError(msg, cause)
  }

  function NewErrConflict(msg: string): (e: GoError)
    ensures e.Conflict? && e.Error() == msg && e.Unwrap() == None
  {
    Conflict(msg)
  }

  function NewErrNotFound(msg: string): (e: GoError)
    ensures e.NotFound? && e.Error() == msg && e.Unwrap() == None
  {
    NotFound(msg)
  }

  /** The chain `errors.Is` walks: err, then what each `Unwrap` yields, until nil. */
  function Chain(err: GoError): (c: seq<GoError>)
    ensures |c| > 0 && c[0] == err
    decreases err
  {
    match err.Unwrap()
    case None => [err]
    case Some(inner) => [err] + Chain(inner)
  }

  /** `errors.Is(err, target)`, with Go's `==` on error values read as equality of values. */
  function Is(err: GoError, target: GoError): bool
    decreases err
  {
    err == target || (err.Unwrap().Some? && Is(err.Unwrap().value, target))
  }

  /** `errors.Is` holds exactly for the errors on the unwrap chain. */
  lemma {:induction false} IsIffInChain(err: GoError, target: GoError)
    ensures Is(err, target) <==> target in Chain(err)
    decreases err
  {
    match err.Unwrap()
    case None =>
    case Some(inner) =>
      IsIffInChain(inner, target);
  }

  /** A server error is its own kind and wraps its cause (svc/errors_test.go). */
  lemma {:induction false} ServerErrorIsCause(msg: string, cause: GoError)
    ensures Is(NewErrServerError(msg, Some(cause)), cause)
    ensures Chain(NewErrServerError(msg, Some(cause))) == [ServerError(msg, Some(cause))] + Chain(cause)
  {
  }
}
