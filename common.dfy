/** Shared vocabulary of the model: optional values, the exception kinds the
    back end raises (carried as a tagged result instead of being thrown),
    identifiers and instants. */
module Common {

  /** A value that may be absent: C#'s `T?` and TypeScript's `T | null`. */
  datatype Option<+T> = None | Some(value: T) {
    /** `value ?? fallback` */
    function GetOr(fallback: T): T {
      match this
      case Some(v) => v
      case None => fallback
    }
  }

  /** The exception kinds the back end distinguishes. Each constructor stands
      for one exception class that the error middleware catches separately. */
  datatype Error =
    | ValidationFailed(messages: seq<string>) // FluentValidation.ValidationException
    | DomainRule(message: string)             // DomainException
    | InvalidSignature(message: string)       // InvalidWebhookSignatureException
    | InvalidOperation(message: string)       // InvalidOperationException
    | Integration(message: string)            // GitHubIntegrationException
    | Unexpected(message: string)             // any other exception (persistence, cancellation)

  /** The outcome of an operation that may throw. */
  datatype Result<+T> = Ok(value: T) | Fail(error: Error) {
    predicate IsFailure() { Fail? }

    function PropagateFailure<U>(): Result<U>
      requires Fail?
    {
      Fail(error)
    }

    function Extract(): T
      requires Ok?
    {
      value
    }
  }

  /** A `Guid`; the value 0 plays the role of `Guid.Empty`. */
  type Guid = nat
  const EmptyGuid: Guid := 0

  /** A `DateTime` as a tick count; wall-clock reads become parameters. */
  type Instant = int
}
