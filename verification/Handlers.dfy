/** The price response (src/handlers.rs) as a function of what was read. */
module Handlers {
  import opened Common
  import opened Errors
  import opened Pricing
  import opened Freshness
  import Providers

  /** The committed state one read transaction returns. */
  datatype Stored = Stored(snapshot: Option<Snapshot>, health: seq<ProviderHealth>)

  /** The outcome of the latest completed refresh of this process. */
  datatype Report = Report(succeeded: bool, errors: seq<string>)

  datatype HttpStatus = Http200 | Http500 | Http503

  datatype Response = Response(
    sources: seq<Row>,
    health: seq<ProviderHealth>,
    average: Option<real>,
    spread: Option<real>,
    status: PriceStatus,
    contributing: seq<string>,
    configuredCount: int,
    maxAge: int,
    evaluatedAt: int,
    warnings: seq<string>,
    refreshSucceeded: bool)

  const NO_SNAPSHOT: string := "No stored BTC price snapshot is available yet."
  const READ_FAILED: string := "Failed to load stored price data."
  const SERVING_LATEST: string := "Refresh failed; serving latest SQLite snapshot: "

  function Quotes(stored: Stored): seq<Quote> {
    if stored.snapshot.Some? then stored.snapshot.value.sources else []
  }

  /** A refresh that could not be stored keeps the response from being LIVE. */
  function Demoted(status: PriceStatus, report: Report): PriceStatus {
    if report.errors != [] && status == Live then Degraded else status
  }

  function Prefixed(errors: seq<string>, hadSnapshot: bool): seq<string> {
    seq(|errors|, i requires 0 <= i < |errors| => if hadSnapshot then SERVING_LATEST + errors[i] else errors[i])
  }

  /** `read` is None when the stored state could not be read. */
  function Respond(read: Option<Stored>, report: Report, now: int): (HttpStatus, Response) {
    var stored := if read.Some? then read.value else Stored(None, []);
    var evaluated := Evaluate(Quotes(stored), stored.health, now);
    var kept := if stored.snapshot.Some? then stored.snapshot.value.warnings else [NO_SNAPSHOT];
    var warnings := if read.None? then [READ_FAILED] else Prefixed(report.errors, stored.snapshot.Some?) + kept;
    var http := if read.None? then Http500 else if evaluated.sources == [] then Http503 else Http200;
    (http,
     Response(evaluated.sources, stored.health, evaluated.average, evaluated.spread,
              Demoted(evaluated.status, report), evaluated.contributing, |Providers.ALL|,
              SOURCE_MAX_AGE, now, warnings, report.succeeded && read.Some?))
  }

  /** A response is LIVE exactly when every provider has a fresh quote and succeeded last and
      no refresh failed since; it fails exactly when nothing could be read, is unavailable
      exactly without quotes, and repeats what went wrong in front of the stored warnings. */
  lemma {:induction false} RespondMeaning(stored: Stored, report: Report, now: int)
    ensures var (http, data) := Respond(Some(stored), report, now);
            var evaluated := Evaluate(Quotes(stored), stored.health, now);
            && (http == Http503 <==> forall q :: q in Quotes(stored) ==> q.price <= 0.0)
            && (http == Http503 || http == Http200)
            && (data.status == Live <==> evaluated.status == Live && report.errors == [])
            && (data.status == StalePrices <==> evaluated.status == StalePrices)
            && (data.status == Unavailable <==> http == Http503)
            && (data.refreshSucceeded <==> report.succeeded)
            && data.health == stored.health && data.evaluatedAt == now
            && data.sources == evaluated.sources && data.contributing == evaluated.contributing
            && data.average == evaluated.average && data.spread == evaluated.spread
            && var kept := if stored.snapshot.Some? then stored.snapshot.value.warnings else [NO_SNAPSHOT];
               && |data.warnings| == |report.errors| + |kept|
               && data.warnings[|report.errors|..] == kept
               && forall i :: 0 <= i < |report.errors| ==>
                    data.warnings[i] == (if stored.snapshot.Some? then SERVING_LATEST else "") + report.errors[i]
  {
    NothingHeldExactly(Quotes(stored));
    StatusMeaning(Quotes(stored), stored.health, now);
  }

  /** Without a readable state the response says only that. */
  lemma {:induction false} UnreadMeaning(report: Report, now: int)
    ensures var (http, data) := Respond(None, report, now);
            && http == Http500 && data.status == Unavailable && data.warnings == [READ_FAILED]
            && data.sources == [] && data.contributing == [] && data.average == None && data.spread == None
            && data.health == [] && !data.refreshSucceeded
  {
    assert Valids([]) == [];
    assert Rows([], now) == [];
    ContributorCount([]);
    StatusMeaning([], [], now);
  }
}
