/** Typed provider failures and the retry hints they may carry (src/errors.rs). */
module Errors {
  import opened Common
  import opened Providers

  /** A Retry-After value: a delay in seconds or an absolute Unix time. */
  datatype RetryAfter = Delay(seconds: nat) | At(unix: int)

  datatype ErrorKind =
    | Timeout
    | Transport
    | Http(status: nat, retryAfter: Option<RetryAfter>)
    | InvalidPayload
    | InvalidPrice

  /** `message` is the client-safe text shown for the failure. */
  datatype ProviderError = ProviderError(provider: Provider, kind: ErrorKind, message: string)

  datatype ErrorCategory = TimeoutError | TransportError | HttpError | InvalidPayloadError | InvalidPriceError

  /** The part of a failure that is stored and published. */
  datatype SourceError = SourceError(category: ErrorCategory, message: string, httpStatus: Option<nat>)

  function HealthError(e: ProviderError): SourceError {
    var category := match e.kind
      case Timeout => TimeoutError
      case Transport => TransportError
      case Http(_, _) => HttpError
      case InvalidPayload => InvalidPayloadError
      case InvalidPrice => InvalidPriceError;
    SourceError(category, e.message, if e.kind.Http? then Some(e.kind.status) else None)
  }

  /** The latest recorded attempt of a provider. */
  datatype LastAttempt =
    | NoAttempt
    | Success(attemptedAt: int)
    | Failure(attemptedAt: int, error: SourceError)

  datatype ProviderHealth = ProviderHealth(source: string, lastAttempt: LastAttempt)

  const U64_MAX: nat := 0xFFFF_FFFF_FFFF_FFFF

  /** The waiting time a failure asks for, measured at wall-clock time `nowUnix`. */
  function HintSeconds(kind: ErrorKind, nowUnix: int): Option<nat> {
    match kind
    case Http(_, Some(Delay(seconds))) => Some(seconds)
    case Http(_, Some(At(unix))) =>
      if unix < 0 then None
      else
        var seconds := Max(unix - nowUnix, 0);
        if seconds <= U64_MAX then Some(seconds) else None
    case _ => None
  }

  /** A failure asks for `s` seconds exactly when its response named that delay, or a date that
      s seconds and no fewer reach. */
  lemma {:induction false} HintMeaning(kind: ErrorKind, nowUnix: int, s: nat)
    ensures HintSeconds(kind, nowUnix) == Some(s)
            <==> && kind.Http? && kind.retryAfter.Some?
                 && match kind.retryAfter.value
                    case Delay(seconds) => s == seconds
                    case At(unix) =>
                      0 <= unix && unix - nowUnix <= 0xFFFF_FFFF_FFFF_FFFF
                      && if unix <= nowUnix then s == 0 else nowUnix + s == unix
  {
  }

  /** The stored category tells the kinds of failure apart, and only HTTP failures carry a
      status, their own. */
  lemma {:induction false} HealthErrorMeaning(e: ProviderError)
    ensures var stored := HealthError(e);
            && (stored.category == TimeoutError <==> e.kind.Timeout?)
            && (stored.category == TransportError <==> e.kind.Transport?)
            && (stored.category == HttpError <==> e.kind.Http?)
            && (stored.category == InvalidPayloadError <==> e.kind.InvalidPayload?)
            && (stored.category == InvalidPriceError <==> e.kind.InvalidPrice?)
            && stored.message == e.message
            && (stored.httpStatus.Some? <==> e.kind.Http?)
            && (e.kind.Http? ==> stored.httpStatus == Some(e.kind.status))
  {
  }

  /** The waiting time is the shortest that reaches the date a hint names. */
  lemma {:induction false} HintReachesDate(status: nat, unix: int, nowUnix: int, shorter: nat)
    requires 0 <= unix && unix - nowUnix <= U64_MAX
    ensures var wait := HintSeconds(Http(status, Some(At(unix))), nowUnix);
            && wait.Some? && nowUnix + wait.value >= unix
            && (shorter < wait.value ==> nowUnix + shorter < unix)
  {
  }

  /** The first recorded failure of `p`, as a linear search finds it. */
  function FailureOf(failures: seq<ProviderError>, p: Provider): (r: Option<ProviderError>)
    ensures r.None? <==> forall f :: f in failures ==> f.provider != p
    ensures r.Some? ==> r.value in failures && r.value.provider == p
  {
    if failures == [] then None
    else if failures[0].provider == p then Some(failures[0])
    else FailureOf(failures[1..], p)
  }
}
