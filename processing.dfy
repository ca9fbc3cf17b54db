/**
 * The failure taxonomy of the sign-in engine: every rejection is a
 * ProcessingException carrying a TYPE, and a few runtime exceptions escape
 * unclassified.
 */
module Processing {

  /** ProcessingException.TYPE as far as the relying party raises or passes it on. */
  datatype ErrorType =
    | InvalidRequest
    | BadRequest
    | TokenInvalid
    | TokenExpired
    | TokenReplay
    | IssuerNotTrusted
    | OtherType
    /** A ProcessingException built from a message only. */
    | Untyped

  datatype Failure =
    | Processing(kind: ErrorType)
    /** IllegalStateException: the configured protocol is not the one this processor serves. */
    | IllegalState
    /** NullPointerException: a null reference is dereferenced. */
    | NullPointer

  /** The result of a step that may throw: a value or the exception it raised. */
  datatype Outcome<+T> = Ok(value: T) | Fail(failure: Failure) {
    predicate IsFailure() { Fail? }

    function PropagateFailure<U>(): Outcome<U>
      requires Fail?
    {
      Fail(failure)
    }

    function Extract(): T
      requires Ok?
    {
      value
    }
  }
}
