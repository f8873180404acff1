/** Errors and their classification (internal/gateway/outcome.go, service.go). */
module Outcomes {
  import opened Common

  datatype ErrorKind = KindInvalidRequest | KindUnavailable | KindTimeout | KindRateLimited | KindInternal | KindUnknown

  /** An error from outside, of a provider or of the client connection, known by what
      errors.As and errors.Is find in it. */
  datatype Cause = Cause(kind: Option<ErrorKind>, isEOF: bool, isCanceled: bool, detail: string)

  /** An error as the gateway returns it: one of its own, or one it passes on. */
  datatype Error =
    | ModelRequired | MessagesRequired | StreamingUnsupported | NoProviders
    | NativeModelInAuto | NoUsableModelMapping | UnsupportedRole(index: nat)
    | UnknownAlias | MissingMapping
    | CircuitIsOpen(provider: string) | StreamingUnavailable(provider: string)
    | Upstream(cause: Cause)

  /** The provider.Error kind that errors.As extracts, if any. */
  function ProviderKind(err: Error): Option<ErrorKind>
  {
    match err
    case CircuitIsOpen(_) => Some(KindUnavailable)
    case StreamingUnavailable(_) => Some(KindInternal)
    case Upstream(cause) => cause.kind
    case _ => None
  }

  datatype Outcome =
    | Success | Canceled | Timeout | Unavailable | RateLimited | InvalidRequest | Internal | OtherFailure

  /** classifyProviderOutcome, given whether the request context is done. */
  function Classify(contextDone: bool, err: Option<Error>): Outcome
  {
    if err.None? then Success
    else if contextDone then Canceled
    else
      match ProviderKind(err.value)
      case Some(KindTimeout) => Timeout
      case Some(KindUnavailable) => Unavailable
      case Some(KindRateLimited) => RateLimited
      case Some(KindInvalidRequest) => InvalidRequest
      case Some(KindInternal) => Internal
      case Some(KindUnknown) => OtherFailure
      case None => if err.value.Upstream? && err.value.cause.isCanceled then Canceled else OtherFailure
  }

  predicate DegradesHealth(o: Outcome) { o == Timeout || o == Unavailable || o == RateLimited }

  predicate EligibleForFallback(err: Error)
  {
    var kind := ProviderKind(err);
    kind == Some(KindUnavailable) || kind == Some(KindTimeout) || kind == Some(KindRateLimited)
  }

  /** The errors worth another provider are exactly those that count against the
      one that raised them, as long as the request itself is alive. */
  lemma FallbackMeansDegraded(err: Error)
    ensures EligibleForFallback(err) <==> DegradesHealth(Classify(false, Some(err)))
    ensures !DegradesHealth(Classify(true, Some(err)))
  {
  }

  function OutcomeName(o: Outcome): (s: string)
    ensures 0 < |s| <= 32 && forall i :: 0 <= i < |s| ==> s[i] < '\U{80}'
  {
    match o
    case Success => "success"
    case Canceled => "cancellation"
    case Timeout => "timeout"
    case Unavailable => "unavailable"
    case RateLimited => "rate_limited"
    case InvalidRequest => "invalid_request"
    case Internal => "internal"
    case OtherFailure => "other_failure"
  }

  /** The names of provider.ErrorKind; a kind of its own has none of these. */
  function KindName(k: ErrorKind): string
    requires k != KindUnknown
  {
    match k
    case KindInvalidRequest => "invalid_request"
    case KindUnavailable => "unavailable"
    case KindTimeout => "timeout"
    case KindRateLimited => "rate_limited"
    case KindInternal => "internal"
  }

  /** An outcome that is recorded under the name of the kind, or as another failure when
      the kind has no name here or there is none. */
  predicate TellsKind(o: Outcome, kind: Option<ErrorKind>)
  {
    if kind.Some? && kind.value != KindUnknown then OutcomeName(o) == KindName(kind.value) else OutcomeName(o) == "other_failure"
  }

  /** What is recorded of an error of a live request is the name the provider gave its
      kind. An error is a cancellation exactly when the context is done, or when it is
      no provider error and says so itself; no error is a success, and only that. */
  lemma OutcomeTellsError(contextDone: bool, err: Option<Error>)
    ensures err.Some? && Classify(contextDone, err) != Canceled ==> TellsKind(Classify(contextDone, err), ProviderKind(err.value))
    ensures Classify(contextDone, err) == Success <==> err.None?
    ensures Classify(contextDone, err) == Canceled
            <==> err.Some? && (contextDone || (ProviderKind(err.value).None? && err.value.Upstream? && err.value.cause.isCanceled))
  {
  }
}
