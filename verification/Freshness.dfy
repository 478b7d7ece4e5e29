/** Evaluation of stored quotes at a point in time (src/freshness.rs). */
module Freshness {
  import opened Common
  import opened Providers
  import opened Errors
  import opened Pricing
  import opened Averages
  import Names

  const SOURCE_MAX_AGE: int := 90

  datatype Freshness = Fresh | Stale | Unknown | Future

  datatype PriceStatus = Live | Degraded | StalePrices | Unavailable

  datatype Row = Row(quote: Quote, age: Option<nat>, freshness: Freshness)

  datatype Evaluation = Evaluation(
    sources: seq<Row>,
    average: Option<real>,
    spread: Option<real>,
    status: PriceStatus,
    contributing: seq<string>)

  /** Age by checked 64-bit subtraction; negative and unrepresentable ages are unknown. */
  function Age(time: Option<int>, now: int): Option<nat> {
    if time.Some? && 0 <= now - time.value <= I64_MAX then Some(now - time.value) else None
  }

  function FreshnessOf(q: Quote, now: int): Freshness {
    if !Configured(q.source) then Unknown
    else if q.time.Some? && q.time.value > now then Future
    else match Age(q.time, now)
      case Some(age) => if age < SOURCE_MAX_AGE then Fresh else Stale
      case None => Unknown
  }

  function RowOf(q: Quote, now: int): Row {
    Row(q, Age(q.time, now), FreshnessOf(q, now))
  }

  function Rows(quotes: seq<Quote>, now: int): (rows: seq<Row>)
    ensures |rows| == |Valids(quotes)|
    ensures forall i :: 0 <= i < |rows| ==> rows[i] == RowOf(Valids(quotes)[i], now)
  {
    seq(|Valids(quotes)|, i requires 0 <= i < |Valids(quotes)| => RowOf(Valids(quotes)[i], now))
  }

  predicate Qualifies(row: Row, p: Provider) {
    row.quote.source == Name(p) && row.freshness == Fresh
  }

  /** A known observation time orders rows; an unknown one comes first. */
  predicate NotOlder(a: Row, b: Row) {
    b.quote.time.None? || (a.quote.time.Some? && a.quote.time.value >= b.quote.time.value)
  }

  /** The last of the newest qualifying rows of `p`. */
  function Newest(rows: seq<Row>, p: Provider): Option<Row> {
    if rows == [] then None
    else Better(rows[|rows| - 1], Newest(rows[..|rows| - 1], p), p)
  }

  /** The later of two rows wins unless it is older. */
  function Better(row: Row, best: Option<Row>, p: Provider): Option<Row> {
    if Qualifies(row, p) && (best.None? || NotOlder(row, best.value)) then Some(row) else best
  }

  /** One contribution per configured provider, in configured order. */
  function ContributorsFrom(rows: seq<Row>, k: nat): seq<Row>
    requires k <= COUNT
    decreases COUNT - k
  {
    if k == COUNT then []
    else (if Newest(rows, ALL[k]).Some? then [Newest(rows, ALL[k]).value] else []) + ContributorsFrom(rows, k + 1)
  }

  function Contributors(rows: seq<Row>): seq<Row> {
    ContributorsFrom(rows, 0)
  }

  function Prices(rows: seq<Row>): (prices: seq<real>)
    ensures |prices| == |rows|
  {
    seq(|rows|, i requires 0 <= i < |rows| => rows[i].quote.price)
  }

  function SourceNames(rows: seq<Row>): (names: seq<string>)
    ensures |names| == |rows|
  {
    seq(|rows|, i requires 0 <= i < |rows| => rows[i].quote.source)
  }

  predicate Healthy(health: seq<ProviderHealth>, p: Provider) {
    exists h :: h in health && h.source == Name(p) && h.lastAttempt.Success?
  }

  predicate AllHealthy(health: seq<ProviderHealth>) {
    forall p :: Healthy(health, p)
  }

  function StatusFrom(contributors: nat, anyRow: bool, allHealthy: bool): PriceStatus {
    if contributors == COUNT && allHealthy then Live
    else if contributors != 0 then Degraded
    else if anyRow then StalePrices
    else Unavailable
  }

  function StatusOf(rows: seq<Row>, health: seq<ProviderHealth>): PriceStatus {
    StatusFrom(|Contributors(rows)|, rows != [], AllHealthy(health))
  }

  function Evaluate(quotes: seq<Quote>, health: seq<ProviderHealth>, now: int): Evaluation {
    var rows := Rows(quotes, now);
    var prices := Prices(Contributors(rows));
    Evaluation(
      rows,
      if prices == [] then None else Some(Mean(prices)),
      if prices == [] then None else Some(Spread(prices)),
      StatusOf(rows, health),
      SourceNames(Contributors(rows)))
  }

  /** What counts as fresh, and why anything else does not. */
  lemma {:induction false} FreshExactly(q: Quote, now: int)
    ensures var freshness := FreshnessOf(q, now);
            && (freshness == Fresh <==> Configured(q.source) && q.time.Some? && 0 <= now - q.time.value < 90)
            && (freshness == Future <==> Configured(q.source) && q.time.Some? && now < q.time.value)
            && (freshness == Stale <==> Configured(q.source) && q.time.Some?
                                        && 90 <= now - q.time.value <= 0x7FFF_FFFF_FFFF_FFFF)
  {
  }

  lemma {:induction false} AgeExactly(q: Quote, now: int, age: nat)
    ensures RowOf(q, now).quote == q
    ensures RowOf(q, now).age == Some(age)
            <==> q.time.Some? && now == q.time.value + age && age <= 0x7FFF_FFFF_FFFF_FFFF
  {
  }

  // ---- Which rows contribute ----------------------------------------------------

  predicate HasFresh(rows: seq<Row>, p: Provider) {
    exists x :: x in rows && Qualifies(x, p)
  }

  /** A qualifying row of maximal observation time is found whenever there is one. */
  lemma {:induction false} NewestMeaning(rows: seq<Row>, p: Provider)
    ensures Newest(rows, p).Some? <==> HasFresh(rows, p)
    ensures Newest(rows, p).Some? ==>
              && Newest(rows, p).value in rows
              && Qualifies(Newest(rows, p).value, p)
              && forall x :: x in rows && Qualifies(x, p) ==> NotOlder(Newest(rows, p).value, x)
    decreases |rows|
  {
    if rows != [] {
      NewestMeaning(rows[..|rows| - 1], p);
      assert rows == rows[..|rows| - 1] + [rows[|rows| - 1]];
    }
  }

  /** `r` is the row some provider at position k or later contributes. */
  ghost predicate Chosen(rows: seq<Row>, k: nat, r: Row) {
    exists p: Provider :: k <= Index(p) && Newest(rows, p) == Some(r)
  }

  lemma {:induction false} ChosenStep(rows: seq<Row>, k: nat, r: Row)
    requires k < COUNT
    ensures Chosen(rows, k, r) <==> Newest(rows, ALL[k]) == Some(r) || Chosen(rows, k + 1, r)
    ensures Chosen(rows, k, r) ==> k <= Names.Rank(r.quote.source) < COUNT
  {
    assert Index(ALL[k]) == k;
    if Chosen(rows, k, r) {
      var p: Provider :| k <= Index(p) && Newest(rows, p) == Some(r);
      NewestMeaning(rows, p);
      Names.RankOfConfigured(p);
      assert p == ALL[k] || k + 1 <= Index(p);
    }
  }

  /** Exactly one row per provider that has a fresh one, of maximal observation time,
      in configured order. */
  lemma {:induction false} ContributorsMeaning(rows: seq<Row>, k: nat)
    requires k <= COUNT
    ensures forall r :: r in ContributorsFrom(rows, k) <==> Chosen(rows, k, r)
    ensures forall i, j :: 0 <= i < j < |ContributorsFrom(rows, k)| ==>
              Names.Rank(ContributorsFrom(rows, k)[i].quote.source)
              < Names.Rank(ContributorsFrom(rows, k)[j].quote.source)
    decreases COUNT - k
  {
    if k < COUNT {
      ContributorsMeaning(rows, k + 1);
      var c, rest, best := ContributorsFrom(rows, k), ContributorsFrom(rows, k + 1), Newest(rows, ALL[k]);
      forall r ensures r in c <==> Chosen(rows, k, r) {
        ChosenStep(rows, k, r);
      }
      if best.Some? {
        NewestMeaning(rows, ALL[k]);
        Names.RankOfConfigured(ALL[k]);
        assert Index(ALL[k]) == k;
        forall j | 0 <= j < |rest| ensures k < Names.Rank(rest[j].quote.source) {
          assert rest[j] in rest;
          if k + 1 < COUNT { ChosenStep(rows, k + 1, rest[j]); }
        }
      }
    }
  }

  /** A row that no provider may use is invisible to the aggregates, wherever it stands. */
  lemma {:induction false} NewestIgnores(a: seq<Row>, x: Row, b: seq<Row>, p: Provider)
    requires !Qualifies(x, p)
    ensures Newest(a + [x] + b, p) == Newest(a + b, p)
    decreases |b|
  {
    if b == [] {
      assert a + [x] + b == a + [x] && a + b == a;
      assert (a + [x])[..|a|] == a;
    } else {
      var init := b[..|b| - 1];
      assert (a + [x] + b)[..|a + [x] + b| - 1] == a + [x] + init;
      assert (a + b)[..|a + b| - 1] == a + init;
      NewestIgnores(a, x, init, p);
    }
  }

  lemma {:induction false} ContributorsIgnore(a: seq<Row>, x: Row, b: seq<Row>, k: nat)
    requires k <= COUNT && forall p :: !Qualifies(x, p)
    ensures ContributorsFrom(a + [x] + b, k) == ContributorsFrom(a + b, k)
    decreases COUNT - k
  {
    if k < COUNT {
      NewestIgnores(a, x, b, ALL[k]);
      ContributorsIgnore(a, x, b, k + 1);
    }
  }

  lemma {:induction false} ValidsOfConcat(a: seq<Quote>, b: seq<Quote>)
    ensures Valids(a + b) == Valids(a) + Valids(b)
    decreases |b|
  {
    if b == [] {
      assert a + b == a;
    } else {
      assert (a + b)[..|a + b| - 1] == a + b[..|b| - 1];
      ValidsOfConcat(a, b[..|b| - 1]);
    }
  }

  lemma {:induction false} RowsConcat(a: seq<Quote>, b: seq<Quote>, now: int)
    ensures Rows(a + b, now) == Rows(a, now) + Rows(b, now)
  {
    ValidsOfConcat(a, b);
  }

  lemma {:induction false} ContributorsOnlyFresh(a: seq<Quote>, x: Quote, b: seq<Quote>, now: int)
    requires !ValidQuote(x) || FreshnessOf(x, now) != Fresh
    ensures Contributors(Rows(a + [x] + b, now)) == Contributors(Rows(a + b, now))
    ensures Rows(a + [x] + b, now) == [] <==> Rows(a + b, now) == [] && !ValidQuote(x)
  {
    RowsConcat(a + [x], b, now);
    RowsConcat(a, [x], now);
    RowsConcat(a, b, now);
    assert [x][..0] == [];
    if ValidQuote(x) {
      assert Rows([x], now) == [RowOf(x, now)];
      ContributorsIgnore(Rows(a, now), RowOf(x, now), Rows(b, now), 0);
    } else {
      assert Rows([x], now) == [];
    }
  }

  /** Stale, unknown, future, invalid and unconfigured quotes never alter the aggregates,
      and the status only tells whether any valid quote is held at all. */
  lemma {:induction false} OnlyFreshMatters(a: seq<Quote>, x: Quote, b: seq<Quote>,
                                            health: seq<ProviderHealth>, now: int)
    requires !ValidQuote(x) || FreshnessOf(x, now) != Fresh
    ensures var extended := Evaluate(a + [x] + b, health, now);
            var plain := Evaluate(a + b, health, now);
            && extended.average == plain.average && extended.spread == plain.spread
            && extended.contributing == plain.contributing
            && extended.status == if plain.status == Unavailable && ValidQuote(x) then StalePrices else plain.status
  {
    ContributorsOnlyFresh(a, x, b, now);
  }

  // ---- Coverage and status ----------------------------------------------------------

  predicate Covered(rows: seq<Row>) {
    forall p :: HasFresh(rows, p)
  }

  predicate SomeFresh(rows: seq<Row>) {
    exists p :: HasFresh(rows, p)
  }

  function Present(r: Option<Row>): nat {
    if r.Some? then 1 else 0
  }

  lemma {:induction false} ContributorCount(rows: seq<Row>)
    ensures |Contributors(rows)| == Present(Newest(rows, CoinGecko)) + Present(Newest(rows, Coinbase))
                                    + Present(Newest(rows, Kraken)) + Present(Newest(rows, Gemini))
  {
    assert ContributorsFrom(rows, 4) == [];
    assert |ContributorsFrom(rows, 3)| == Present(Newest(rows, ALL[3]));
    assert |ContributorsFrom(rows, 2)| == Present(Newest(rows, ALL[2])) + |ContributorsFrom(rows, 3)|;
    assert |ContributorsFrom(rows, 1)| == Present(Newest(rows, ALL[1])) + |ContributorsFrom(rows, 2)|;
  }

  /** All four contribute exactly when each provider has a fresh row. */
  lemma {:induction false} FullCoverage(rows: seq<Row>)
    ensures |Contributors(rows)| <= COUNT
    ensures |Contributors(rows)| == COUNT <==> Covered(rows)
  {
    ContributorCount(rows);
    NewestMeaning(rows, CoinGecko);
    NewestMeaning(rows, Coinbase);
    NewestMeaning(rows, Kraken);
    NewestMeaning(rows, Gemini);
  }

  /** Some provider contributes exactly when some configured row is fresh. */
  lemma {:induction false} SomeCoverage(rows: seq<Row>)
    ensures Contributors(rows) != [] <==> SomeFresh(rows)
  {
    ContributorCount(rows);
    NewestMeaning(rows, CoinGecko);
    NewestMeaning(rows, Coinbase);
    NewestMeaning(rows, Kraken);
    NewestMeaning(rows, Gemini);
  }

  /** `average` is the mean and `spread` the spread of the rows' prices, if there are any. */
  ghost predicate Summarises(rows: seq<Row>, average: Option<real>, spread: Option<real>) {
    if rows == [] then average.None? && spread.None?
    else
      && average.Some? && average.value * |rows| as real == Sum(Prices(rows), |rows|)
      && spread.Some? && IsSpread(rows, spread.value)
  }

  lemma {:induction false} SummaryOfRows(rows: seq<Row>)
    ensures var prices := Prices(rows);
            Summarises(rows, if prices == [] then None else Some(Mean(prices)),
                       if prices == [] then None else Some(Spread(prices)))
  {
    if rows != [] {
      SpreadOfRows(rows);
      MeanTimesCount(Prices(rows));
    }
  }

  /** The aggregates summarise exactly the contributors. */
  lemma {:induction false} AggregatesMeaning(quotes: seq<Quote>, health: seq<ProviderHealth>, now: int)
    ensures var r, rows := Evaluate(quotes, health, now), Contributors(Rows(quotes, now));
            && r.sources == Rows(quotes, now)
            && r.contributing == SourceNames(rows)
            && Summarises(rows, r.average, r.spread)
  {
    SummaryOfRows(Contributors(Rows(quotes, now)));
  }

  /** The distance between two of the rows' prices between which all others lie. */
  ghost predicate IsSpread(rows: seq<Row>, spread: real) {
    exists low: nat, high: nat ::
      Spans(Prices(rows), low, high) && spread == rows[high].quote.price - rows[low].quote.price
  }

  lemma {:induction false} SpreadOfRows(rows: seq<Row>)
    requires rows != []
    ensures IsSpread(rows, Spread(Prices(rows)))
  {
    var prices := Prices(rows);
    SpreadMeaning(prices);
    var low: nat, high: nat :| Spans(prices, low, high) && Spread(prices) == prices[high] - prices[low];
    assert prices[low] == rows[low].quote.price && prices[high] == rows[high].quote.price;
  }

  lemma {:induction false} MeanTimesCount(prices: seq<real>)
    requires prices != []
    ensures Mean(prices) * |prices| as real == Sum(prices, |prices|)
  {
    var n, total := |prices| as real, Sum(prices, |prices|);
    assert (total / n) * n == total;
  }

  /** A quote that makes its provider contribute: valid, dated, and less than 90 seconds old. */
  ghost predicate FreshQuote(q: Quote, p: Provider, now: int) {
    q.price > 0.0 && q.source == Name(p) && q.time.Some? && 0 <= now - q.time.value < 90
  }

  lemma {:induction false} HasFreshExactly(quotes: seq<Quote>, p: Provider, now: int)
    ensures HasFresh(Rows(quotes, now), p) <==> exists q :: q in quotes && FreshQuote(q, p, now)
  {
    var rows := Rows(quotes, now);
    ValidsSubset(quotes);
    if HasFresh(rows, p) {
      var x :| x in rows && Qualifies(x, p);
      var i :| 0 <= i < |rows| && rows[i] == x;
      assert Valids(quotes)[i] in Valids(quotes);
      assert FreshQuote(x.quote, p, now);
    }
    if q :| q in quotes && FreshQuote(q, p, now) {
      var i :| 0 <= i < |Valids(quotes)| && Valids(quotes)[i] == q;
      assert rows[i] == RowOf(q, now) && Qualifies(rows[i], p);
      assert rows[i] in rows;
    }
  }

  /** `p` has a fresh quote. */
  ghost predicate HasFreshQuote(quotes: seq<Quote>, p: Provider, now: int) {
    exists q :: q in quotes && FreshQuote(q, p, now)
  }

  lemma {:induction false} NothingHeldExactly(quotes: seq<Quote>)
    ensures Valids(quotes) == [] <==> forall q :: q in quotes ==> q.price <= 0.0
  {
    ValidsSubset(quotes);
    if Valids(quotes) != [] {
      assert Valids(quotes)[0] in Valids(quotes);
    }
  }

  lemma {:induction false} CoverageOfQuotes(quotes: seq<Quote>, now: int)
    ensures Covered(Rows(quotes, now)) <==> forall p: Provider :: HasFreshQuote(quotes, p, now)
    ensures SomeFresh(Rows(quotes, now)) <==> exists p: Provider :: HasFreshQuote(quotes, p, now)
  {
    forall p ensures HasFresh(Rows(quotes, now), p) <==> HasFreshQuote(quotes, p, now) {
      HasFreshExactly(quotes, p, now);
    }
  }

  /** The last attempt at `p` is recorded as a success. */
  ghost predicate Succeeded(health: seq<ProviderHealth>, p: Provider) {
    exists h :: h in health && h.source == Name(p) && h.lastAttempt.Success?
  }

  lemma {:induction false} HealthyExactly(health: seq<ProviderHealth>)
    ensures AllHealthy(health) <==> forall p: Provider :: Succeeded(health, p)
  {
    forall p: Provider ensures Healthy(health, p) <==> Succeeded(health, p) {}
  }

  /** LIVE in terms of the stored quotes and health records: every provider has a fresh quote
      and succeeded last. */
  lemma {:induction false} LiveMeaning(quotes: seq<Quote>, health: seq<ProviderHealth>, now: int)
    ensures Evaluate(quotes, health, now).status == Live
            <==> forall p: Provider :: HasFreshQuote(quotes, p, now) && Succeeded(health, p)
  {
    StatusMeaning(quotes, health, now);
    CoverageOfQuotes(quotes, now);
    HealthyExactly(health);
  }

  /** STALE and UNAVAILABLE mean that no provider has a fresh quote; UNAVAILABLE that nothing
      valid is held at all. */
  lemma {:induction false} NotFreshMeaning(quotes: seq<Quote>, health: seq<ProviderHealth>, now: int)
    ensures var status := Evaluate(quotes, health, now).status;
            && (status == StalePrices || status == Unavailable <==>
                  forall p: Provider :: !HasFreshQuote(quotes, p, now))
            && (status == Unavailable <==> forall q :: q in quotes ==> q.price <= 0.0)
  {
    StatusMeaning(quotes, health, now);
    CoverageOfQuotes(quotes, now);
    NothingHeldExactly(quotes);
    if Valids(quotes) == [] { NothingHeldNothingFresh(quotes, now); }
  }

  lemma {:induction false} NothingHeldNothingFresh(quotes: seq<Quote>, now: int)
    requires forall q :: q in quotes ==> q.price <= 0.0
    ensures forall p: Provider :: !HasFreshQuote(quotes, p, now)
  {
  }

  /** The four statuses in terms of the rows and the health records alone. */
  lemma {:induction false} StatusMeaning(quotes: seq<Quote>, health: seq<ProviderHealth>, now: int)
    ensures var rows := Rows(quotes, now);
            var status := Evaluate(quotes, health, now).status;
            && (status == Live <==> Covered(rows) && AllHealthy(health))
            && (status == Degraded <==> SomeFresh(rows) && !(Covered(rows) && AllHealthy(health)))
            && (status == StalePrices <==> !SomeFresh(rows) && Valids(quotes) != [])
            && (status == Unavailable <==> Valids(quotes) == [])
  {
    FullCoverage(Rows(quotes, now));
    SomeCoverage(Rows(quotes, now));
  }
}
