/** One background refresh (src/pricing.rs): the outcomes of the fetches a plan asked for,
    and the snapshot and health records built from them. */
module Batches {
  import opened Common
  import opened Providers
  import opened Errors
  import opened Pricing
  import opened Averages
  import Refresh
  import Storage

  datatype Quoted = Quoted(price: real, time: int)

  /** The outcome of one provider's fetch, whatever it was and whenever it came. */
  datatype Fetched = Fetched(provider: Provider, attemptedAt: int, result: Result<Quoted, ProviderError>)

  /** Outcomes arrive for the plan's providers in configured order, prices are checked to
      be positive, and an error names the provider that was asked. */
  predicate ResultsFor(sources: seq<Provider>, results: seq<Fetched>) {
    && |results| == |sources|
    && forall i :: 0 <= i < |results| ==>
         && results[i].provider == sources[i]
         && (results[i].result.Ok? ==> results[i].result.value.price > 0.0)
         && (results[i].result.Err? ==> results[i].result.error.provider == sources[i])
  }

  function QuoteOf(f: Fetched): Quote
    requires f.result.Ok?
  {
    Quote(Name(f.provider), f.result.value.price, Some(f.result.value.time), KindOf(f.provider))
  }

  function HealthRecord(f: Fetched): ProviderHealth {
    ProviderHealth(Name(f.provider),
                   match f.result
                   case Ok(_) => Success(f.attemptedAt)
                   case Err(e) => Storage.FailureHealth(e, f.attemptedAt))
  }

  function QuotesOf(results: seq<Fetched>): seq<Quote> {
    if results == [] then []
    else
      var rest := QuotesOf(results[..|results| - 1]);
      if results[|results| - 1].result.Ok? then rest + [QuoteOf(results[|results| - 1])] else rest
  }

  function FailuresOf(results: seq<Fetched>): seq<ProviderError> {
    if results == [] then []
    else
      var rest := FailuresOf(results[..|results| - 1]);
      if results[|results| - 1].result.Err? then rest + [results[|results| - 1].result.error] else rest
  }

  function HealthOf(results: seq<Fetched>): (health: seq<ProviderHealth>)
    ensures |health| == |results|
  {
    seq(|results|, i requires 0 <= i < |results| => HealthRecord(results[i]))
  }

  function Messages(failures: seq<ProviderError>): seq<string> {
    seq(|failures|, i requires 0 <= i < |failures| => failures[i].message)
  }

  datatype Batch = Batch(snapshot: Option<Snapshot>, health: seq<ProviderHealth>, failures: seq<ProviderError>)

  function RefreshedSource(quotes: seq<Quote>): string {
    if |quotes| == 1 then quotes[0].source else if |quotes| == COUNT then "all" else "partial"
  }

  function SourcesOf(snapshot: Option<Snapshot>): seq<Quote> {
    if snapshot.Some? then snapshot.value.sources else []
  }

  function PricesOf(quotes: seq<Quote>): (prices: seq<real>)
    ensures |prices| == |quotes|
  {
    seq(|quotes|, i requires 0 <= i < |quotes| => quotes[i].price)
  }

  ghost function BatchOf(previous: Option<Snapshot>, results: seq<Fetched>, now: int): Batch {
    var quotes, failures := QuotesOf(results), FailuresOf(results);
    var sources := Merge(SourcesOf(previous), quotes);
    var prices := PricesOf(sources);
    Batch(
      if quotes == [] then None
      else Some(Snapshot(now, sources,
                         if prices == [] then None else Some(Mean(prices)),
                         if prices == [] then None else Some(Spread(prices)),
                         Messages(failures), Some(RefreshedSource(quotes)))),
      HealthOf(results), failures)
  }

  /** The collecting loop and the record it builds. */
  method RefreshSnapshot(previous: Option<Snapshot>, results: seq<Fetched>, now: int) returns (batch: Batch)
    ensures batch == BatchOf(previous, results, now)
  {
    var refreshed, failures, health := [], [], [];
    var i := 0;
    while i < |results|
      invariant i <= |results|
      invariant refreshed == QuotesOf(results[..i]) && failures == FailuresOf(results[..i])
      invariant health == HealthOf(results[..i])
    {
      assert results[..i + 1][..i] == results[..i];
      health := health + [HealthRecord(results[i])];
      match results[i].result {
        case Ok(_) => refreshed := refreshed + [QuoteOf(results[i])];
        case Err(e) => failures := failures + [e];
      }
      i := i + 1;
    }
    assert results[..i] == results;
    if refreshed == [] {
      return Batch(None, health, failures);
    }
    var sources := MergeSnapshotSources(SourcesOf(previous), refreshed);
    MergeUnique(SourcesOf(previous), refreshed, sources, Merge(SourcesOf(previous), refreshed));
    var prices := PricesOf(sources);
    var average := if prices == [] then None else Some(Mean(prices));
    var spread := if prices == [] then None else Some(Spread(prices));
    batch := Batch(Some(Snapshot(now, sources, average, spread, Messages(failures), Some(RefreshedSource(refreshed)))),
                   health, failures);
  }

  lemma {:induction false} QuotesMeaning(results: seq<Fetched>)
    ensures forall q :: q in QuotesOf(results) <==> exists f :: f in results && f.result.Ok? && QuoteOf(f) == q
    decreases |results|
  {
    if results != [] {
      QuotesMeaning(results[..|results| - 1]);
      assert results == results[..|results| - 1] + [results[|results| - 1]];
    }
  }

  // ---- What a batch reports about each outcome --------------------------------------------

  lemma {:induction false} FailureOfPushed(failures: seq<ProviderError>, e: ProviderError, p: Provider)
    ensures FailureOf(failures + [e], p)
            == if FailureOf(failures, p).Some? then FailureOf(failures, p)
               else if e.provider == p then Some(e) else None
    decreases |failures|
  {
    if failures == [] {
      assert [e][1..] == [] && FailureOf([], p) == None;
    } else {
      assert (failures + [e])[1..] == failures[1..] + [e];
      FailureOfPushed(failures[1..], e, p);
    }
  }

  lemma {:induction false} OutcomesBefore(sources: seq<Provider>, results: seq<Fetched>)
    requires ResultsFor(sources, results) && Refresh.InOrder(sources) && results != []
    ensures var n := |results| - 1;
            && ResultsFor(sources[..n], results[..n]) && Refresh.InOrder(sources[..n])
            && forall i :: 0 <= i < n ==> Index(results[i].provider) < Index(results[n].provider)
  {
  }

  /** The failures name exactly the providers whose fetch failed, each with its own error. */
  lemma {:induction false} FailuresMeaning(sources: seq<Provider>, results: seq<Fetched>, i: nat)
    requires ResultsFor(sources, results) && Refresh.InOrder(sources) && i < |results|
    ensures FailureOf(FailuresOf(results), results[i].provider)
            == if results[i].result.Err? then Some(results[i].result.error) else None
    decreases |results|
  {
    var n := |results| - 1;
    var before, rest := results[..n], FailuresOf(results[..n]);
    OutcomesBefore(sources, results);
    if i < n {
      FailuresMeaning(sources[..n], before, i);
    } else {
      NoFailureOf(sources[..n], before, results[n].provider);
    }
    if results[n].result.Err? { FailureOfPushed(rest, results[n].result.error, results[i].provider); }
  }

  lemma {:induction false} NoFailureOf(sources: seq<Provider>, results: seq<Fetched>, p: Provider)
    requires ResultsFor(sources, results) && forall i :: 0 <= i < |results| ==> results[i].provider != p
    ensures FailureOf(FailuresOf(results), p) == None
    decreases |results|
  {
    if results != [] {
      var n := |results| - 1;
      NoFailureOf(sources[..n], results[..n], p);
      if results[n].result.Err? { FailureOfPushed(FailuresOf(results[..n]), results[n].result.error, p); }
    }
  }

  /** They are listed in the order of the results. */
  lemma {:induction false} FailuresInOrder(sources: seq<Provider>, results: seq<Fetched>)
    requires ResultsFor(sources, results) && Refresh.InOrder(sources)
    ensures forall e :: e in FailuresOf(results) ==> exists i :: 0 <= i < |results| && results[i].result == Err(e)
    ensures forall k, l :: 0 <= k < l < |FailuresOf(results)| ==>
              Index(FailuresOf(results)[k].provider) < Index(FailuresOf(results)[l].provider)
    decreases |results|
  {
    if results != [] {
      var n := |results| - 1;
      var before, rest := results[..n], FailuresOf(results[..n]);
      OutcomesBefore(sources, results);
      FailuresInOrder(sources[..n], before);
      forall e | e in rest
        ensures Index(e.provider) < Index(results[n].provider)
        ensures exists i :: 0 <= i < |results| && results[i].result == Err(e)
      {
        var i :| 0 <= i < n && before[i].result == Err(e);
        assert results[i].result == Err(e);
      }
      assert forall k :: 0 <= k < |rest| ==> rest[k] in rest;
    }
  }

  lemma {:induction false} QuoteCount(results: seq<Fetched>)
    ensures |QuotesOf(results)| <= |results|
    ensures |QuotesOf(results)| == |results| <==> forall f :: f in results ==> f.result.Ok?
    ensures QuotesOf(results) == [] <==> forall f :: f in results ==> f.result.Err?
    decreases |results|
  {
    if results != [] {
      var n := |results| - 1;
      QuoteCount(results[..n]);
      assert results == results[..n] + [results[n]];
    }
  }

  /** The quotes of a batch around one of its successes. */
  lemma {:induction false} QuotesAround(a: seq<Fetched>, f: Fetched, b: seq<Fetched>)
    requires f.result.Ok?
    ensures QuotesOf(a + [f] + b) == QuotesOf(a) + [QuoteOf(f)] + QuotesOf(b)
    decreases |b|
  {
    var all := a + [f] + b;
    if b == [] {
      assert all == a + [f] && all[..|a|] == a;
    } else {
      var n := |b| - 1;
      assert all[..|all| - 1] == a + [f] + b[..n] && all[|all| - 1] == b[n];
      QuotesAround(a, f, b[..n]);
    }
  }

  /** A snapshot is labelled with the provider that alone succeeded, with "all" when all four
      did, and with "partial" otherwise. */
  lemma {:induction false} LabelMeaning(a: seq<Fetched>, f: Fetched, b: seq<Fetched>)
    requires f.result.Ok?
    ensures var shown, others := RefreshedSource(QuotesOf(a + [f] + b)), a + b;
            && ((forall g :: g in others ==> g.result.Err?) ==> shown == Name(f.provider))
            && ((forall g :: g in others ==> g.result.Ok?) && |others| == 3 ==> shown == "all")
            && ((exists g :: g in others && g.result.Ok?) && |others| <= 3
                && ((exists g :: g in others && g.result.Err?) || |others| < 3)
                ==> shown == "partial")
  {
    QuotesAround(a, f, b);
    QuoteCount(a);
    QuoteCount(b);
    assert forall g :: g in a + b <==> g in a || g in b;
    var quotes := QuotesOf(a) + [QuoteOf(f)] + QuotesOf(b);
    if QuotesOf(a) == [] && QuotesOf(b) == [] { assert quotes == [QuoteOf(f)]; }
    if (exists g :: g in a + b && g.result.Err?) {
      assert |QuotesOf(a)| < |a| || |QuotesOf(b)| < |b|;
    }
  }

  /** What a snapshot built from the outcomes holds: the time of its making, each fetched
      quote under its provider's name, and the figures that summarise all its quotes. */
  lemma {:induction false} SnapshotMeaning(previous: Option<Snapshot>, sources: seq<Provider>,
                                           results: seq<Fetched>, now: int)
    requires ResultsFor(sources, results)
    ensures var snapshot := BatchOf(previous, results, now).snapshot;
            && (snapshot.None? <==> forall f :: f in results ==> f.result.Err?)
            && (snapshot.Some? ==>
                  var s := snapshot.value;
                  && s.fetchedAt == now
                  && s.sources != []
                  && s.averagePrice == Some(Mean(PricesOf(s.sources)))
                  && s.spread == Some(Spread(PricesOf(s.sources)))
                  && s.warnings == Messages(FailuresOf(results))
                  && s.refreshedSource == Some(RefreshedSource(QuotesOf(results))))
  {
    QuoteCount(results);
    var quotes := QuotesOf(results);
    if quotes != [] {
      var merged := Merge(SourcesOf(previous), quotes);
      var q := quotes[|quotes| - 1];
      assert LastOf(quotes, q.source) == Some(q);
      assert LastOf(merged, q.source) == Some(q);
    }
  }

  lemma {:induction false} LastQuoteOf(sources: seq<Provider>, results: seq<Fetched>, i: nat)
    requires ResultsFor(sources, results) && Refresh.InOrder(sources) && i < |results|
    ensures LastOf(QuotesOf(results), Name(results[i].provider))
            == if results[i].result.Ok? then Some(QuoteOf(results[i])) else None
    decreases |results|
  {
    var n := |results| - 1;
    var before := results[..n];
    OutcomesBefore(sources, results);
    if results[n].result.Ok? { LastOfPushed(QuotesOf(before), QuoteOf(results[n]), Name(results[i].provider)); }
    if i < n {
      LastQuoteOf(sources[..n], before, i);
      if Name(results[i].provider) == Name(results[n].provider) {
        NameInjective(results[i].provider, results[n].provider);
      }
    } else {
      NoQuoteOf(before, results[n].provider);
    }
  }

  lemma {:induction false} NoQuoteOf(results: seq<Fetched>, p: Provider)
    requires forall i :: 0 <= i < |results| ==> results[i].provider != p
    ensures LastOf(QuotesOf(results), Name(p)) == None
  {
    QuotesMeaning(results);
    forall q | q in QuotesOf(results) ensures q.source != Name(p) {
      var f :| f in results && f.result.Ok? && QuoteOf(f) == q;
      if q.source == Name(p) { NameInjective(f.provider, p); }
    }
  }

  /** Each successful fetch is in the snapshot with its own price, time and kind. */
  lemma {:induction false} FetchedQuoteStored(previous: Option<Snapshot>, sources: seq<Provider>,
                                              results: seq<Fetched>, now: int, i: nat)
    requires ResultsFor(sources, results) && Refresh.InOrder(sources) && i < |results| && results[i].result.Ok?
    ensures var snapshot := BatchOf(previous, results, now).snapshot;
            && snapshot.Some?
            && Quote(Name(results[i].provider), results[i].result.value.price, Some(results[i].result.value.time),
                     KindOf(results[i].provider)) in snapshot.value.sources
  {
    QuoteCount(results);
    LastQuoteOf(sources, results, i);
    var merged := Merge(SourcesOf(previous), QuotesOf(results));
    LastOfOrdered(merged, QuoteOf(results[i]));
  }

  /** Each fetch leaves its outcome and its start as its provider's health ... */
  lemma {:induction false} AttemptsMeaning(health: map<string, LastAttempt>, sources: seq<Provider>,
                                           results: seq<Fetched>, i: nat)
    requires ResultsFor(sources, results) && Refresh.InOrder(sources) && i < |results|
    ensures var after, name := RecordAttempts(health, results), Name(results[i].provider);
            && name in after
            && after[name] == match results[i].result
                              case Ok(_) => Success(results[i].attemptedAt)
                              case Err(e) => Failure(results[i].attemptedAt, HealthError(e))
    decreases |results|
  {
    var n := |results| - 1;
    OutcomesBefore(sources, results);
    if i < n {
      AttemptsMeaning(health, sources[..n], results[..n], i);
      if Name(results[i].provider) == Name(results[n].provider) {
        NameInjective(results[i].provider, results[n].provider);
      }
    }
  }

  /** ... and providers that were not asked keep theirs. */
  lemma {:induction false} OthersKeepHealth(health: map<string, LastAttempt>, results: seq<Fetched>,
                                            source: string)
    requires forall f :: f in results ==> Name(f.provider) != source
    ensures var after := RecordAttempts(health, results);
            (source in after <==> source in health) && (source in health ==> after[source] == health[source])
    decreases |results|
  {
    if results != [] {
      assert results[|results| - 1] in results;
      OthersKeepHealth(health, results[..|results| - 1], source);
    }
  }

  lemma {:induction false} FetchedQuotesValid(sources: seq<Provider>, results: seq<Fetched>)
    requires ResultsFor(sources, results)
    ensures AllValid(QuotesOf(results))
  {
    QuotesMeaning(results);
  }

  /** An HTTP status outside the range the health table admits. */
  predicate OddStatus(f: Fetched) {
    f.result.Err? && f.result.error.kind.Http? && !(100 <= f.result.error.kind.status <= 599)
  }

  /** The store accepts a batch exactly when no fetch failed with a status outside 100..599;
      one such failure rejects the quotes of all providers of the batch. */
  lemma {:induction false} BatchAcceptedExactly(previous: Option<Snapshot>, sources: seq<Provider>,
                                                results: seq<Fetched>, now: int)
    requires ResultsFor(sources, results)
    ensures var batch := BatchOf(previous, results, now);
            Storage.Acceptable(batch.snapshot, batch.health) <==> forall f :: f in results ==> !OddStatus(f)
  {
    var batch := BatchOf(previous, results, now);
    FetchedQuotesValid(sources, results);
    MergedValid(SourcesOf(previous), QuotesOf(results));
    forall i | 0 <= i < |results|
      ensures Storage.HealthCheck(Storage.EncodeHealth(batch.health[i].lastAttempt)) <==> !OddStatus(results[i])
    {
      RecordAcceptedExactly(results[i]);
    }
    forall f | f in results && Storage.Acceptable(batch.snapshot, batch.health) ensures !OddStatus(f) {
      var i :| 0 <= i < |results| && results[i] == f;
      assert batch.health[i] in batch.health;
    }
  }

  lemma {:induction false} RecordAcceptedExactly(f: Fetched)
    ensures Storage.HealthCheck(Storage.EncodeHealth(HealthRecord(f).lastAttempt)) <==> !OddStatus(f)
  {
    match f.result
    case Ok(_) =>
      Storage.HealthAcceptedExactly(ProviderError(f.provider, Timeout, ""), f.attemptedAt);
    case Err(e) =>
      Storage.HealthAcceptedExactly(e, f.attemptedAt);
  }

  /** One provider answering with status 700 costs the other providers their quotes. */
  lemma {:induction false} OddStatusLosesBatch(previous: Option<Snapshot>, now: int)
    ensures var results := [Fetched(CoinGecko, 0, Ok(Quoted(100.0, 0))),
                            Fetched(Coinbase, 0, Err(ProviderError(Coinbase, Http(700, None), "")))];
            var batch := BatchOf(previous, results, now);
            batch.snapshot.Some? && !Storage.Acceptable(batch.snapshot, batch.health)
  {
    var a := Fetched(CoinGecko, 0, Ok(Quoted(100.0, 0)));
    var b := Fetched(Coinbase, 0, Err(ProviderError(Coinbase, Http(700, None), "")));
    var results := [a, b];
    BatchAcceptedExactly(previous, [CoinGecko, Coinbase], results, now);
    assert results[1] in results && OddStatus(b);
    QuotesMeaning(results);
    assert results[0] in results && QuoteOf(a) in QuotesOf(results);
  }

  // ---- Batches in commit order ---------------------------------------------------------

  /** The quotes left by a history of committed batches. */
  ghost function FoldSources(start: seq<Quote>, history: seq<seq<Fetched>>): seq<Quote> {
    if history == [] then start
    else
      var before := FoldSources(start, history[..|history| - 1]);
      var quotes := QuotesOf(history[|history| - 1]);
      if quotes == [] then before else Merge(before, quotes)
  }

  /** Every committed quote, oldest first. */
  function AllQuotes(history: seq<seq<Fetched>>): seq<Quote> {
    if history == [] then [] else AllQuotes(history[..|history| - 1]) + QuotesOf(history[|history| - 1])
  }

  function RecordAttempts(health: map<string, LastAttempt>, results: seq<Fetched>): map<string, LastAttempt> {
    if results == [] then health
    else
      var last := HealthRecord(results[|results| - 1]);
      RecordAttempts(health, results[..|results| - 1])[last.source := last.lastAttempt]
  }

  function FoldHealth(start: map<string, LastAttempt>, history: seq<seq<Fetched>>): map<string, LastAttempt> {
    if history == [] then start
    else RecordAttempts(FoldHealth(start, history[..|history| - 1]), history[|history| - 1])
  }

  ghost predicate AllFetchedValid(history: seq<seq<Fetched>>) {
    forall results :: results in history ==> AllValid(QuotesOf(results))
  }

  lemma {:induction false} AllQuotesValid(history: seq<seq<Fetched>>)
    requires AllFetchedValid(history)
    ensures AllValid(AllQuotes(history))
    decreases |history|
  {
    if history != [] {
      assert history[|history| - 1] in history;
      assert forall r :: r in history[..|history| - 1] ==> r in history;
      AllQuotesValid(history[..|history| - 1]);
    }
  }

  /** Committing batch by batch is one merge of all committed quotes, in commit order. */
  lemma {:induction false} FoldIsOneMerge(start: seq<Quote>, history: seq<seq<Fetched>>)
    requires AllFetchedValid(history)
    ensures FoldSources(start, history) == if AllQuotes(history) == [] then start else Merge(start, AllQuotes(history))
    decreases |history|
  {
    if history != [] {
      var before, last := history[..|history| - 1], history[|history| - 1];
      assert forall r :: r in before ==> r in history;
      FoldIsOneMerge(start, before);
      AllQuotesValid(before);
      if AllQuotes(before) == [] {
        assert AllQuotes(history) == QuotesOf(last);
      } else if QuotesOf(last) == [] {
        assert AllQuotes(history) == AllQuotes(before);
      } else {
        MergeConcat(start, AllQuotes(before), QuotesOf(last));
      }
    }
  }

  /** Provenance: after any history, a source's quote is its latest committed one; without
      any it is what the start held, untouched or with its invalid quotes dropped. */
  lemma {:induction false} Provenance(start: seq<Quote>, history: seq<seq<Fetched>>, source: string)
    requires AllFetchedValid(history)
    ensures var now := LastOf(FoldSources(start, history), source);
            var committed := LastOf(AllQuotes(history), source);
            && (committed.Some? ==> now == committed)
            && (committed.None? ==> now == LastOf(start, source) || now == LastOf(Valids(start), source))
  {
    FoldIsOneMerge(start, history);
  }
}
