/** What the dashboard shows between responses (src/dashboard.js): validation of a
    response, and the ages, contributors and label it derives from elapsed time. */
module Client {
  import opened Common
  import opened Providers
  import opened Errors
  import opened Pricing
  import opened Averages
  import opened Freshness
  import opened Handlers
  import opened Names

  /** The badge; OFFLINE replaces every server status while prices cannot be fetched. */
  datatype Badge = Server(status: PriceStatus) | Offline

  datatype Shown = Shown(badge: Badge, contributors: seq<Row>, mean: Option<real>, spread: Option<real>)

  /** The checks a response must pass before it is displayed. */
  predicate Validates(data: Response) {
    && data.configuredCount >= 1
    && data.maxAge > 0
    && |data.contributing| <= data.configuredCount
    && (forall i, j :: 0 <= i < j < |data.contributing| ==> data.contributing[i] != data.contributing[j])
    && (forall r :: r in data.sources ==> r.quote.price > 0.0 && (r.freshness == Fresh ==> r.age.Some?))
  }

  /** A row received as fresh that has not expired since. */
  predicate StillFresh(row: Row, elapsed: nat, maxAge: int) {
    row.freshness == Fresh && row.age.Some? && row.age.value + elapsed < maxAge
  }

  /** The first of the youngest still-fresh rows of a source. */
  function Youngest(rows: seq<Row>, source: string, elapsed: nat, maxAge: int): (r: Option<Row>)
    ensures r.Some? ==> StillFresh(r.value, elapsed, maxAge)
  {
    if rows == [] then None
    else
      var best := Youngest(rows[1..], source, elapsed, maxAge);
      if rows[0].quote.source == source && StillFresh(rows[0], elapsed, maxAge)
         && (best.None? || rows[0].age.value <= best.value.age.value) then Some(rows[0]) else best
  }

  lemma {:induction false} YoungestMeaning(rows: seq<Row>, source: string, elapsed: nat, maxAge: int)
    ensures var r := Youngest(rows, source, elapsed, maxAge);
            && (r.None? <==> forall x :: x in rows && x.quote.source == source ==> !StillFresh(x, elapsed, maxAge))
            && (r.Some? ==>
                  && r.value in rows && r.value.quote.source == source
                  && forall x :: x in rows && x.quote.source == source && StillFresh(x, elapsed, maxAge) ==>
                       r.value.age.value <= x.age.value)
    decreases |rows|
  {
    if rows != [] {
      YoungestMeaning(rows[1..], source, elapsed, maxAge);
      assert rows == [rows[0]] + rows[1..];
    }
  }

  /** One row for every contributing source of the response that still has one. */
  function Picks(rows: seq<Row>, sources: seq<string>, elapsed: nat, maxAge: int): seq<Row> {
    if sources == [] then []
    else
      var pick := Youngest(rows, sources[0], elapsed, maxAge);
      (if pick.Some? then [pick.value] else []) + Picks(rows, sources[1..], elapsed, maxAge)
  }

  function BadgeOf(data: Response, count: nat, priceError: bool, presenceError: bool): Badge {
    var status :=
      if data.sources != [] && count == 0 then StalePrices
      else if data.status == Live && count < data.configuredCount then Degraded
      else data.status;
    if priceError then Offline
    else if presenceError && status == Live then Server(Degraded)
    else Server(status)
  }

  function Displayed(data: Response, elapsed: nat, priceError: bool, presenceError: bool): Shown {
    var contributors := Picks(data.sources, data.contributing, elapsed, data.maxAge);
    var prices := Prices(contributors);
    Shown(BadgeOf(data, |contributors|, priceError, presenceError),
          contributors,
          if prices == [] then None else Some(Mean(prices)),
          if prices == [] then None else Some(Spread(prices)))
  }

  /** Whatever a server sent, a validated response is displayed soundly: contributors of
      distinct sources, no more than configured, all young, with a positive mean. */
  lemma {:induction false} DisplayIsSound(data: Response, elapsed: nat, priceError: bool, presenceError: bool)
    requires Validates(data)
    ensures var shown := Displayed(data, elapsed, priceError, presenceError);
            && |shown.contributors| <= data.configuredCount
            && (forall i, j :: 0 <= i < j < |shown.contributors| ==>
                  shown.contributors[i].quote.source != shown.contributors[j].quote.source)
            && (forall r :: r in shown.contributors ==>
                  && r in data.sources && r.quote.price > 0.0
                  && r.age.Some? && r.age.value + elapsed < data.maxAge)
            && (shown.mean.Some? <==> shown.contributors != [])
            && (shown.mean.Some? ==> shown.mean.value > 0.0 && shown.spread.value >= 0.0)
  {
    var picks := Picks(data.sources, data.contributing, elapsed, data.maxAge);
    PicksMeaning(data.sources, data.contributing, elapsed, data.maxAge);
    PicksDistinct(data.sources, data.contributing, elapsed, data.maxAge);
    if picks != [] {
      var prices := Prices(picks);
      forall i | 0 <= i < |prices| ensures prices[i] > 0.0 { assert picks[i] in picks; }
      PositiveSum(prices, |prices|);
      PositiveQuotient(Sum(prices, |prices|), |prices| as real);
      SpreadMeaning(prices);
    }
  }

  lemma {:induction false} PositiveSum(prices: seq<real>, k: nat)
    requires 1 <= k <= |prices| && forall i :: 0 <= i < |prices| ==> prices[i] > 0.0
    ensures Sum(prices, k) > 0.0
  {
    if k > 1 { PositiveSum(prices, k - 1); } else { assert Sum(prices, 0) == 0.0; }
  }

  lemma {:induction false} PositiveQuotient(a: real, m: real)
    requires a > 0.0 && m >= 1.0
    ensures a / m > 0.0
  {
    var q := a / m;
    assert q * m == a;
    SignOfProduct(q, m);
    assert q == 0.0 ==> q * m == 0.0;
  }

  lemma {:induction false} PicksMeaning(rows: seq<Row>, sources: seq<string>, elapsed: nat, maxAge: int)
    ensures |Picks(rows, sources, elapsed, maxAge)| <= |sources|
    ensures forall r :: r in Picks(rows, sources, elapsed, maxAge) ==>
              r in rows && r.quote.source in sources && StillFresh(r, elapsed, maxAge)
    decreases |sources|
  {
    if sources != [] {
      PicksMeaning(rows, sources[1..], elapsed, maxAge);
      YoungestMeaning(rows, sources[0], elapsed, maxAge);
      assert forall s :: s in sources[1..] ==> s in sources;
    }
  }

  lemma {:induction false} PicksDistinct(rows: seq<Row>, sources: seq<string>, elapsed: nat, maxAge: int)
    requires forall i, j :: 0 <= i < j < |sources| ==> sources[i] != sources[j]
    ensures var picks := Picks(rows, sources, elapsed, maxAge);
            forall i, j :: 0 <= i < j < |picks| ==> picks[i].quote.source != picks[j].quote.source
    decreases |sources|
  {
    if sources != [] {
      PicksDistinct(rows, sources[1..], elapsed, maxAge);
      PicksMeaning(rows, sources[1..], elapsed, maxAge);
      YoungestMeaning(rows, sources[0], elapsed, maxAge);
      var rest := Picks(rows, sources[1..], elapsed, maxAge);
      forall j | 0 <= j < |rest| ensures rest[j].quote.source != sources[0] { assert rest[j] in rest; }
    }
  }

  // ---- The server's responses are accepted -------------------------------------

  predicate DistinctSources(sources: seq<string>) {
    forall i, j :: 0 <= i < j < |sources| ==> sources[i] != sources[j]
  }

  lemma {:induction false} ContributingDistinct(rows: seq<Row>)
    ensures DistinctSources(SourceNames(Contributors(rows)))
  {
    ContributorsMeaning(rows, 0);
  }

  lemma {:induction false} RowsWellFormed(quotes: seq<Quote>, now: int, r: Row)
    requires r in Rows(quotes, now)
    ensures r.quote.price > 0.0 && (r.freshness == Fresh ==> r.age.Some?)
  {
    RowAt(quotes, now, r);
  }

  /** Every response of the server passes the dashboard's validation, and a 503 always
      carries the UNAVAILABLE status the dashboard insists on. */
  lemma {:induction false} ResponsesValidate(read: Option<Stored>, report: Report, now: int)
    ensures var (http, data) := Respond(read, report, now);
            Validates(data) && (http == Http503 ==> data.status == Unavailable)
  {
    var quotes := if read.Some? then Quotes(read.value) else [];
    var rows := Rows(quotes, now);
    FullCoverage(rows);
    ContributingDistinct(rows);
    NoRowsNoContributors(rows);
    forall r | r in rows ensures r.quote.price > 0.0 && (r.freshness == Fresh ==> r.age.Some?) {
      RowsWellFormed(quotes, now, r);
    }
    assert Respond(read, report, now).1.sources == rows;
  }

  /** Only an unavailable response comes without quotes, so a dashboard that holds quotes
      loses them to none of the server's other responses. */
  lemma {:induction false} OnlyUnavailableIsEmpty(read: Option<Stored>, report: Report, now: int)
    ensures var (_, data) := Respond(read, report, now);
            data.status == Unavailable <==> data.sources == []
  {
    var stored := if read.Some? then read.value else Stored(None, []);
    StatusMeaning(Quotes(stored), stored.health, now);
  }

  lemma {:induction false} NoRowsNoContributors(rows: seq<Row>)
    ensures rows == [] ==> |Contributors(rows)| == 0
  {
    ContributorCount(rows);
  }

  // ---- Extrapolation agrees with the server ----------------------------------------

  /** No configured provider's quote is dated after `now`. */
  predicate NoFuture(quotes: seq<Quote>, now: int) {
    forall q :: q in quotes ==> !Ahead(q, now)
  }

  predicate Ahead(q: Quote, now: int) {
    Configured(q.source) && q.time.Some? && q.time.value > now
  }

  /** A quote that counts for `p` at `now`. */
  predicate Counts(q: Quote, now: int, p: Provider) {
    q.source == Name(p) && FreshnessOf(q, now) == Fresh
  }

  /** Quote `i` is the first of the newest that count, or the last of them. */
  predicate FirstNewest(quotes: seq<Quote>, now: int, p: Provider, i: nat) {
    && i < |quotes| && Counts(quotes[i], now, p)
    && forall k :: 0 <= k < |quotes| && Counts(quotes[k], now, p) ==>
         quotes[k].time.value <= quotes[i].time.value && (k < i ==> quotes[k].time.value < quotes[i].time.value)
  }

  predicate LastNewest(quotes: seq<Quote>, now: int, p: Provider, i: nat) {
    && i < |quotes| && Counts(quotes[i], now, p)
    && forall k :: 0 <= k < |quotes| && Counts(quotes[k], now, p) ==>
         quotes[k].time.value <= quotes[i].time.value && (i < k ==> quotes[k].time.value < quotes[i].time.value)
  }

  /** Where the newest quotes of `p` are tied, the first and the last have one price. */
  ghost predicate TiesAgree(quotes: seq<Quote>, now: int, p: Provider) {
    forall i: nat, j: nat :: FirstNewest(quotes, now, p, i) && LastNewest(quotes, now, p, j) ==>
      quotes[i].price == quotes[j].price
  }

  ghost predicate AllTiesAgree(quotes: seq<Quote>, now: int) {
    forall p :: TiesAgree(quotes, now, p)
  }

  /** Ageing a row locally is re-evaluating its quote later; a future quote may only gain. */
  lemma {:induction false} AgeingAgrees(q: Quote, now: int, elapsed: nat)
    ensures StillFresh(RowOf(q, now), elapsed, SOURCE_MAX_AGE) ==> FreshnessOf(q, now + elapsed) == Fresh
    ensures !Ahead(q, now) && FreshnessOf(q, now + elapsed) == Fresh ==>
              StillFresh(RowOf(q, now), elapsed, SOURCE_MAX_AGE)
  {
  }

  lemma {:induction false} RowAt(quotes: seq<Quote>, now: int, row: Row)
    requires row in Rows(quotes, now)
    ensures row == RowOf(row.quote, now) && row.quote in Valids(quotes)
  {
    var i :| 0 <= i < |Rows(quotes, now)| && Rows(quotes, now)[i] == row;
  }

  lemma {:induction false} RowLater(quotes: seq<Quote>, q: Quote, now: int)
    requires q in Valids(quotes)
    ensures RowOf(q, now) in Rows(quotes, now)
  {
    var i :| 0 <= i < |Valids(quotes)| && Valids(quotes)[i] == q;
    assert Rows(quotes, now)[i] == RowOf(q, now);
  }

  /** What the dashboard picks for a provider, and what the server would count later. */
  function Mine(quotes: seq<Quote>, now: int, elapsed: nat, p: Provider): Option<Row> {
    Youngest(Rows(quotes, now), Name(p), elapsed, SOURCE_MAX_AGE)
  }

  function Theirs(quotes: seq<Quote>, now: int, elapsed: nat, p: Provider): Option<Row> {
    Newest(Rows(quotes, now + elapsed), p)
  }

  /** A row the dashboard still shows is one the server would count later. */
  lemma {:induction false} PickIsFresh(quotes: seq<Quote>, now: int, elapsed: nat, p: Provider)
    requires Mine(quotes, now, elapsed, p).Some?
    ensures Theirs(quotes, now, elapsed, p).Some?
    ensures Newest(Rows(quotes, now), p).Some?
    ensures NotOlder(Theirs(quotes, now, elapsed, p).value, Mine(quotes, now, elapsed, p).value)
    ensures var mine := Mine(quotes, now, elapsed, p).value;
            mine == RowOf(mine.quote, now) && mine.quote in Valids(quotes) && mine.quote.source == Name(p)
  {
    var row := Mine(quotes, now, elapsed, p).value;
    YoungestMeaning(Rows(quotes, now), Name(p), elapsed, SOURCE_MAX_AGE);
    NewestMeaning(Rows(quotes, now), p);
    NewestMeaning(Rows(quotes, now + elapsed), p);
    RowAt(quotes, now, row);
    AgeingAgrees(row.quote, now, elapsed);
    RowLater(quotes, row.quote, now + elapsed);
    assert Qualifies(RowOf(row.quote, now + elapsed), p);
    assert Qualifies(row, p);
  }

  /** Without future quotes, what the server counts later is still shown. */
  lemma {:induction false} FreshIsPicked(quotes: seq<Quote>, now: int, elapsed: nat, p: Provider)
    requires NoFuture(Valids(quotes), now) && Theirs(quotes, now, elapsed, p).Some?
    ensures Mine(quotes, now, elapsed, p).Some?
    ensures var row := RowOf(Theirs(quotes, now, elapsed, p).value.quote, now);
            row.age.Some? && Mine(quotes, now, elapsed, p).value.age.value <= row.age.value
    ensures var theirs := Theirs(quotes, now, elapsed, p).value;
            theirs.quote in Valids(quotes) && theirs.quote.source == Name(p)
  {
    var row := Theirs(quotes, now, elapsed, p).value;
    YoungestMeaning(Rows(quotes, now), Name(p), elapsed, SOURCE_MAX_AGE);
    NewestMeaning(Rows(quotes, now + elapsed), p);
    RowAt(quotes, now + elapsed, row);
    AgeingAgrees(row.quote, now, elapsed);
    RowLater(quotes, row.quote, now);
    assert StillFresh(RowOf(row.quote, now), elapsed, SOURCE_MAX_AGE);
  }

  lemma {:induction false} NamesFrom(rows: seq<Row>, k: nat)
    requires k < COUNT
    ensures SourceNames(ContributorsFrom(rows, k)) ==
            (if Newest(rows, ALL[k]).Some? then [Name(ALL[k])] else []) + SourceNames(ContributorsFrom(rows, k + 1))
  {
    NewestMeaning(rows, ALL[k]);
  }

  lemma {:induction false} PicksCons(rows: seq<Row>, first: string, rest: seq<string>, elapsed: nat,
                                     maxAge: int)
    ensures Picks(rows, [first] + rest, elapsed, maxAge) ==
            (if Youngest(rows, first, elapsed, maxAge).Some?
             then [Youngest(rows, first, elapsed, maxAge).value] else [])
            + Picks(rows, rest, elapsed, maxAge)
  {
    assert ([first] + rest)[1..] == rest;
  }

  /** The picks for provider k and the later ones. */
  lemma {:induction false} PicksFrom(quotes: seq<Quote>, now: int, elapsed: nat, k: nat)
    requires k < COUNT
    ensures PicksAt(quotes, now, elapsed, k) ==
            (if Mine(quotes, now, elapsed, ALL[k]).Some? then [Mine(quotes, now, elapsed, ALL[k]).value] else [])
            + PicksAt(quotes, now, elapsed, k + 1)
  {
    var rows := Rows(quotes, now);
    NamesFrom(rows, k);
    PicksCons(rows, Name(ALL[k]), SourceNames(ContributorsFrom(rows, k + 1)), elapsed, SOURCE_MAX_AGE);
    if Newest(rows, ALL[k]).None? {
      if Mine(quotes, now, elapsed, ALL[k]).Some? { PickIsFresh(quotes, now, elapsed, ALL[k]); }
      assert [] + SourceNames(ContributorsFrom(rows, k + 1)) == SourceNames(ContributorsFrom(rows, k + 1));
    }
  }

  function PicksAt(quotes: seq<Quote>, now: int, elapsed: nat, k: nat): seq<Row>
    requires k <= COUNT
  {
    Picks(Rows(quotes, now), SourceNames(ContributorsFrom(Rows(quotes, now), k)), elapsed, SOURCE_MAX_AGE)
  }

  /** Rows that agree in source and price, one by one. */
  predicate SamePrices(a: seq<Row>, b: seq<Row>) {
    && |a| == |b|
    && forall i :: 0 <= i < |a| ==>
         a[i].quote.source == b[i].quote.source && a[i].quote.price == b[i].quote.price
  }

  lemma {:induction false} SamePricesCons(mine: Option<Row>, theirs: Option<Row>, a: seq<Row>, b: seq<Row>)
    requires mine.Some? <==> theirs.Some?
    requires mine.Some? ==> mine.value.quote.price == theirs.value.quote.price
                            && mine.value.quote.source == theirs.value.quote.source
    requires SamePrices(a, b)
    ensures SamePrices((if mine.Some? then [mine.value] else []) + a, (if theirs.Some? then [theirs.value] else []) + b)
  {
  }

  lemma {:induction false} NoPicks(quotes: seq<Quote>, now: int, elapsed: nat)
    ensures PicksAt(quotes, now, elapsed, COUNT) == []
    ensures ContributorsFrom(Rows(quotes, now), COUNT) == []
  {
  }

  lemma {:induction false} SamePricesSameAggregates(a: seq<Row>, b: seq<Row>)
    requires SamePrices(a, b)
    ensures Prices(a) == Prices(b) && SourceNames(a) == SourceNames(b)
  {
  }

  /** Coverage without future quotes can only shrink. */
  lemma {:induction false} CoverageShrinks(quotes: seq<Quote>, now: int, elapsed: nat)
    requires NoFuture(Valids(quotes), now)
    ensures |Contributors(Rows(quotes, now + elapsed))| <= |Contributors(Rows(quotes, now))| <= COUNT
  {
    forall p | Theirs(quotes, now, elapsed, p).Some? ensures Newest(Rows(quotes, now), p).Some? {
      FreshIsPicked(quotes, now, elapsed, p);
      PickIsFresh(quotes, now, elapsed, p);
    }
    ContributorCount(Rows(quotes, now));
    ContributorCount(Rows(quotes, now + elapsed));
  }

  // ---- Exactly when the two sides agree for good ------------------------------------

  /** Dashboard and server pick rows of the same price for `p` after `elapsed` seconds. */
  predicate Agree(quotes: seq<Quote>, now: int, elapsed: nat, p: Provider) {
    var mine, theirs := Mine(quotes, now, elapsed, p), Theirs(quotes, now, elapsed, p);
    (mine.Some? <==> theirs.Some?) && (mine.Some? ==> mine.value.quote.price == theirs.value.quote.price)
  }

  /** The row picked does not change while it stays fresh. */
  lemma {:induction false} YoungestPersists(rows: seq<Row>, source: string, elapsed: nat, maxAge: int)
    requires Youngest(rows, source, elapsed, maxAge).Some?
    ensures Youngest(rows, source, 0, maxAge) == Youngest(rows, source, elapsed, maxAge)
    decreases |rows|
  {
    var rest, rest0 := Youngest(rows[1..], source, elapsed, maxAge), Youngest(rows[1..], source, 0, maxAge);
    if rest.Some? {
      YoungestPersists(rows[1..], source, elapsed, maxAge);
    } else if rest0.Some? {
      YoungestMeaning(rows[1..], source, elapsed, maxAge);
      YoungestMeaning(rows[1..], source, 0, maxAge);
    }
  }

  /** The rows of the quotes at `now`, one by one. */
  predicate RowsFor(quotes: seq<Quote>, now: int, rows: seq<Row>) {
    |quotes| == |rows| && forall k :: 0 <= k < |quotes| ==> rows[k] == RowOf(quotes[k], now)
  }

  lemma {:induction false} NewestPersists(quotes: seq<Quote>, now: int, elapsed: nat, rows: seq<Row>,
                                          later: seq<Row>, p: Provider)
    requires NoFuture(quotes, now)
    requires RowsFor(quotes, now, rows) && RowsFor(quotes, now + elapsed, later)
    requires Newest(later, p).Some?
    ensures Newest(rows, p).Some? && Newest(rows, p).value.quote == Newest(later, p).value.quote
    decreases |quotes|
  {
    var n := |quotes| - 1;
    var quotesBefore, before, before' := quotes[..n], rows[..n], later[..n];
    assert RowsFor(quotesBefore, now, before) && RowsFor(quotesBefore, now + elapsed, before');
    assert quotes[n] in quotes && forall x :: x in quotesBefore ==> x in quotes;
    if Newest(before', p).Some? {
      NewestPersists(quotesBefore, now, elapsed, before, before', p);
      FreshEarlier(quotesBefore, now, elapsed, before', p);
    } else if Newest(before, p).Some? && FreshnessOf(quotes[n], now + elapsed) == Fresh {
      NewerOutlives(quotesBefore, now, elapsed, before, before', p, quotes[n]);
    }
    assert Newest(rows, p) == Better(RowOf(quotes[n], now), Newest(before, p), p);
    assert Newest(later, p) == Better(RowOf(quotes[n], now + elapsed), Newest(before', p), p);
    BetterPersists(quotes[n], now, elapsed, Newest(before, p), Newest(before', p), p);
  }

  lemma {:induction false} BetterPersists(q: Quote, now: int, elapsed: nat, best: Option<Row>,
                                          best': Option<Row>, p: Provider)
    requires !Ahead(q, now)
    requires best'.Some? ==>
               && best.Some? && best.value.quote == best'.value.quote
               && best'.value.quote.time.Some? && best'.value.quote.time.value > now + elapsed - SOURCE_MAX_AGE
    requires best'.None? && best.Some? && FreshnessOf(q, now + elapsed) == Fresh ==> NotOlder(RowOf(q, now), best.value)
    ensures var mine, theirs := Better(RowOf(q, now), best, p), Better(RowOf(q, now + elapsed), best', p);
            theirs.Some? ==> mine.Some? && mine.value.quote == theirs.value.quote
  {
    AgeingAgrees(q, now, elapsed);
  }

  lemma {:induction false} FreshEarlier(quotes: seq<Quote>, now: int, elapsed: nat, later: seq<Row>,
                                        p: Provider)
    requires RowsFor(quotes, now + elapsed, later)
    requires Newest(later, p).Some?
    ensures Newest(later, p).value.quote.time.Some?
            && Newest(later, p).value.quote.time.value > now + elapsed - SOURCE_MAX_AGE
  {
    NewestMeaning(later, p);
    var i :| 0 <= i < |later| && later[i] == Newest(later, p).value;
  }

  /** A quote still fresh later is newer than every row that has expired by then. */
  lemma {:induction false} NewerOutlives(quotes: seq<Quote>, now: int, elapsed: nat, rows: seq<Row>,
                                         later: seq<Row>, p: Provider, q: Quote)
    requires RowsFor(quotes, now, rows) && RowsFor(quotes, now + elapsed, later)
    requires Newest(rows, p).Some? && Newest(later, p).None?
    requires FreshnessOf(q, now + elapsed) == Fresh
    ensures NotOlder(RowOf(q, now), Newest(rows, p).value)
  {
    NewestMeaning(rows, p);
    NewestMeaning(later, p);
    var i :| 0 <= i < |rows| && rows[i] == Newest(rows, p).value;
    assert !Qualifies(later[i], p);
  }

  /** A future quote outlives everything the dashboard received as fresh. */
  lemma {:induction false} FutureBreaksAgreement(quotes: seq<Quote>, now: int, q: Quote)
    returns (elapsed: nat, p: Provider)
    requires q in Valids(quotes) && Ahead(q, now)
    ensures !Agree(quotes, now, elapsed, p)
  {
    elapsed := q.time.value - now + SOURCE_MAX_AGE - 1;
    p :| Name(p) == q.source;
    var rows, later := Rows(quotes, now), Rows(quotes, now + elapsed);
    RowLater(quotes, q, now + elapsed);
    assert Qualifies(RowOf(q, now + elapsed), p);
    NewestMeaning(later, p);
    YoungestMeaning(rows, Name(p), elapsed, SOURCE_MAX_AGE);
  }

  lemma {:induction false} AgreePersists(quotes: seq<Quote>, now: int, elapsed: nat, p: Provider)
    requires NoFuture(Valids(quotes), now) && Agree(quotes, now, 0, p)
    ensures Agree(quotes, now, elapsed, p)
  {
    var mine, theirs := Mine(quotes, now, elapsed, p), Theirs(quotes, now, elapsed, p);
    if mine.Some? { PickIsFresh(quotes, now, elapsed, p); }
    if theirs.Some? {
      FreshIsPicked(quotes, now, elapsed, p);
      YoungestPersists(Rows(quotes, now), Name(p), elapsed, SOURCE_MAX_AGE);
      NewestPersists(Valids(quotes), now, elapsed, Rows(quotes, now), Rows(quotes, now + elapsed), p);
    }
  }

  /** A row that is young when received is the row of a quote that counts. */
  lemma {:induction false} RowCounts(q: Quote, now: int, p: Provider)
    ensures var row := RowOf(q, now);
            && (row.quote.source == Name(p) && StillFresh(row, 0, SOURCE_MAX_AGE) <==> Counts(q, now, p))
            && (Qualifies(row, p) <==> Counts(q, now, p))
            && (Counts(q, now, p) ==> q.time.Some? && row.age == Some(now - q.time.value))
  {
  }

  /** Putting a quote in front of a list, or behind it. */
  lemma {:induction false} FirstOfLonger(q: Quote, quotes: seq<Quote>, now: int, p: Provider, j: nat)
    requires FirstNewest(quotes, now, p, j)
    ensures FirstNewest([q] + quotes, now, p,
                        if Counts(q, now, p) && q.time.value >= quotes[j].time.value then 0 else j + 1)
  {
    var longer := [q] + quotes;
    var i := if Counts(q, now, p) && q.time.value >= quotes[j].time.value then 0 else j + 1;
    forall k | 0 <= k < |longer| && Counts(longer[k], now, p)
      ensures longer[k].time.value <= longer[i].time.value && (k < i ==> longer[k].time.value < longer[i].time.value)
    {
      if k > 0 { assert longer[k] == quotes[k - 1]; }
    }
  }

  lemma {:induction false} LastOfLonger(quotes: seq<Quote>, q: Quote, now: int, p: Provider, j: nat)
    requires LastNewest(quotes, now, p, j)
    ensures LastNewest(quotes + [q], now, p,
                       if Counts(q, now, p) && q.time.value >= quotes[j].time.value then |quotes| else j)
  {
    var longer := quotes + [q];
    var i := if Counts(q, now, p) && q.time.value >= quotes[j].time.value then |quotes| else j;
    forall k | 0 <= k < |longer| && Counts(longer[k], now, p)
      ensures longer[k].time.value <= longer[i].time.value && (i < k ==> longer[k].time.value < longer[i].time.value)
    {
      if k < |quotes| { assert longer[k] == quotes[k]; }
    }
  }

  lemma {:induction false} OnlyCounting(quotes: seq<Quote>, now: int, p: Provider, i: nat)
    requires i < |quotes| && Counts(quotes[i], now, p)
    requires forall k :: 0 <= k < |quotes| && k != i ==> !Counts(quotes[k], now, p)
    ensures FirstNewest(quotes, now, p, i) && LastNewest(quotes, now, p, i)
  {
  }

  lemma {:induction false} NoneCounts(quotes: seq<Quote>, now: int, rows: seq<Row>, p: Provider)
    requires RowsFor(quotes, now, rows)
    requires Youngest(rows, Name(p), 0, SOURCE_MAX_AGE).None? || Newest(rows, p).None?
    ensures forall k :: 0 <= k < |quotes| ==> !Counts(quotes[k], now, p)
  {
    YoungestMeaning(rows, Name(p), 0, SOURCE_MAX_AGE);
    NewestMeaning(rows, p);
    forall k | 0 <= k < |quotes| ensures !Counts(quotes[k], now, p) {
      RowCounts(quotes[k], now, p);
      assert rows[k] in rows;
    }
  }

  /** The dashboard takes the first of the newest quotes that count ... */
  lemma {:induction false} YoungestIsFirst(quotes: seq<Quote>, now: int, rows: seq<Row>, p: Provider)
    returns (i: nat)
    requires RowsFor(quotes, now, rows) && Youngest(rows, Name(p), 0, SOURCE_MAX_AGE).Some?
    ensures FirstNewest(quotes, now, p, i)
    ensures Youngest(rows, Name(p), 0, SOURCE_MAX_AGE) == Some(rows[i])
    decreases |quotes|
  {
    RowCounts(quotes[0], now, p);
    assert RowsFor(quotes[1..], now, rows[1..]);
    if Youngest(rows[1..], Name(p), 0, SOURCE_MAX_AGE).None? {
      NoneCounts(quotes[1..], now, rows[1..], p);
      forall k | 0 < k < |quotes| ensures !Counts(quotes[k], now, p) { assert quotes[1..][k - 1] == quotes[k]; }
      i := 0;
      OnlyCounting(quotes, now, p, 0);
    } else {
      var j := YoungestIsFirst(quotes[1..], now, rows[1..], p);
      RowCounts(quotes[j + 1], now, p);
      FirstOfLonger(quotes[0], quotes[1..], now, p, j);
      assert [quotes[0]] + quotes[1..] == quotes;
      i := if Counts(quotes[0], now, p) && quotes[0].time.value >= quotes[1..][j].time.value then 0 else j + 1;
    }
  }

  lemma {:induction false} BetterByTime(q: Quote, best: Quote, now: int, p: Provider)
    requires Counts(best, now, p)
    ensures Better(RowOf(q, now), Some(RowOf(best, now)), p)
            == Some(RowOf(if Counts(q, now, p) && q.time.value >= best.time.value then q else best, now))
  {
    RowCounts(q, now, p);
    RowCounts(best, now, p);
  }

  /** ... and the server the last. */
  lemma {:induction false} NewestIsLast(quotes: seq<Quote>, now: int, rows: seq<Row>, p: Provider)
    returns (i: nat)
    requires RowsFor(quotes, now, rows) && Newest(rows, p).Some?
    ensures LastNewest(quotes, now, p, i)
    ensures Newest(rows, p) == Some(rows[i])
    decreases |quotes|
  {
    var n := |quotes| - 1;
    var before, rowsBefore := quotes[..n], rows[..n];
    assert RowsFor(before, now, rowsBefore) && quotes == before + [quotes[n]];
    if Newest(rowsBefore, p).None? {
      NoneCounts(before, now, rowsBefore, p);
      RowCounts(quotes[n], now, p);
      forall k | 0 <= k < n ensures !Counts(quotes[k], now, p) { assert before[k] == quotes[k]; }
      i := n;
      OnlyCounting(quotes, now, p, n);
    } else {
      var j := NewestIsLast(before, now, rowsBefore, p);
      assert before[j] == quotes[j] && rowsBefore[j] == rows[j];
      LastOfLonger(before, quotes[n], now, p, j);
      BetterByTime(quotes[n], quotes[j], now, p);
      i := if Counts(quotes[n], now, p) && quotes[n].time.value >= quotes[j].time.value then n else j;
    }
  }

  lemma {:induction false} FirstIsUnique(quotes: seq<Quote>, now: int, p: Provider, i: nat, j: nat)
    requires FirstNewest(quotes, now, p, i) && FirstNewest(quotes, now, p, j)
    ensures i == j
  {
  }

  lemma {:induction false} LastIsUnique(quotes: seq<Quote>, now: int, p: Provider, i: nat, j: nat)
    requires LastNewest(quotes, now, p, i) && LastNewest(quotes, now, p, j)
    ensures i == j
  {
  }

  lemma {:induction false} TiesAgreeAt(quotes: seq<Quote>, now: int, p: Provider, i: nat, j: nat)
    requires FirstNewest(quotes, now, p, i) && LastNewest(quotes, now, p, j)
    ensures TiesAgree(quotes, now, p) <==> quotes[i].price == quotes[j].price
  {
    forall i': nat, j': nat | FirstNewest(quotes, now, p, i') && LastNewest(quotes, now, p, j')
      ensures i == i' && j == j'
    {
      FirstIsUnique(quotes, now, p, i, i');
      LastIsUnique(quotes, now, p, j, j');
    }
  }

  lemma {:induction false} FreshAtOnce(quotes: seq<Quote>, now: int, p: Provider)
    ensures Mine(quotes, now, 0, p).Some? <==> Theirs(quotes, now, 0, p).Some?
    ensures Mine(quotes, now, 0, p).None? ==> forall q :: q in Valids(quotes) ==> !Counts(q, now, p)
  {
    YoungestMeaning(Rows(quotes, now), Name(p), 0, SOURCE_MAX_AGE);
    NewestMeaning(Rows(quotes, now), p);
    if Mine(quotes, now, 0, p).Some? {
      PickIsFresh(quotes, now, 0, p);
    } else {
      forall q | q in Valids(quotes) ensures !Counts(q, now, p) { RowLater(quotes, q, now); }
    }
  }

  /** Both sides pick quotes of one price at once exactly when ties agree. */
  lemma {:induction false} AgreesAtOnceExactly(quotes: seq<Quote>, now: int, p: Provider)
    ensures Agree(quotes, now, 0, p) <==> TiesAgree(Valids(quotes), now, p)
  {
    FreshAtOnce(quotes, now, p);
    if Mine(quotes, now, 0, p).Some? {
      var i := YoungestIsFirst(Valids(quotes), now, Rows(quotes, now), p);
      var j := NewestIsLast(Valids(quotes), now, Rows(quotes, now), p);
      TiesAgreeAt(Valids(quotes), now, p, i, j);
    }
  }

  /** The dashboard agrees with the server at every later time exactly when no configured
      quote is dated in the future and, wherever the newest quotes of a provider are tied,
      the first and the last carry the same price. */
  lemma {:induction false} AgreementExactly(quotes: seq<Quote>, now: int)
    ensures (forall elapsed: nat, p: Provider :: Agree(quotes, now, elapsed, p))
            <==> NoFuture(Valids(quotes), now) && AllTiesAgree(Valids(quotes), now)
  {
    forall p ensures Agree(quotes, now, 0, p) <==> TiesAgree(Valids(quotes), now, p) {
      AgreesAtOnceExactly(quotes, now, p);
    }
    if !NoFuture(Valids(quotes), now) {
      var q :| q in Valids(quotes) && Ahead(q, now);
      var elapsed, p := FutureBreaksAgreement(quotes, now, q);
    } else if AllTiesAgree(Valids(quotes), now) {
      forall elapsed: nat, p: Provider ensures Agree(quotes, now, elapsed, p) {
        AgreePersists(quotes, now, elapsed, p);
      }
    }
  }

  // ---- The dashboard refines the server ------------------------------------------------

  lemma {:induction false} PicksAgree(quotes: seq<Quote>, now: int, elapsed: nat, p: Provider)
    requires NoFuture(Valids(quotes), now) && AllTiesAgree(Valids(quotes), now)
    ensures Agree(quotes, now, elapsed, p)
    ensures var mine, theirs := Mine(quotes, now, elapsed, p), Theirs(quotes, now, elapsed, p);
            mine.Some? ==> mine.value.quote.source == theirs.value.quote.source
  {
    AgreesAtOnceExactly(quotes, now, p);
    AgreePersists(quotes, now, elapsed, p);
    if Mine(quotes, now, elapsed, p).Some? {
      PickIsFresh(quotes, now, elapsed, p);
      FreshIsPicked(quotes, now, elapsed, p);
    }
  }

  /** A list with one quote per source has no ties. */
  lemma {:induction false} OrderedHasNoTies(quotes: seq<Quote>, now: int)
    requires Ordered(quotes)
    ensures AllTiesAgree(Valids(quotes), now)
  {
    forall p ensures TiesAgree(Valids(quotes), now, p) {
      forall i: nat, j: nat | FirstNewest(Valids(quotes), now, p, i) && LastNewest(Valids(quotes), now, p, j)
        ensures Valids(quotes)[i].price == Valids(quotes)[j].price
      {
        ValidsSubset(quotes);
        LastOfOrdered(quotes, Valids(quotes)[i]);
        LastOfOrdered(quotes, Valids(quotes)[j]);
        assert Valids(quotes)[i] in Valids(quotes) && Valids(quotes)[j] in Valids(quotes);
      }
    }
  }

  lemma {:induction false} PickedPrices(quotes: seq<Quote>, now: int, elapsed: nat, k: nat)
    requires k <= COUNT && NoFuture(Valids(quotes), now) && AllTiesAgree(Valids(quotes), now)
    ensures SamePrices(PicksAt(quotes, now, elapsed, k), ContributorsFrom(Rows(quotes, now + elapsed), k))
    decreases COUNT - k
  {
    if k < COUNT {
      PickedPrices(quotes, now, elapsed, k + 1);
      PicksAgree(quotes, now, elapsed, ALL[k]);
      PicksFrom(quotes, now, elapsed, k);
      SamePricesCons(Mine(quotes, now, elapsed, ALL[k]), Theirs(quotes, now, elapsed, ALL[k]),
                     PicksAt(quotes, now, elapsed, k + 1), ContributorsFrom(Rows(quotes, now + elapsed), k + 1));
    } else {
      NoPicks(quotes, now, elapsed);
    }
  }

  /** With no future-dated configured quote and no tie between different prices, what the dashboard shows `elapsed`
      seconds after a response is what the server would answer then from the same rows; with
      errors of its own it shows OFFLINE, or no better than DEGRADED. */
  lemma {:induction false} ClientRefinesServer(stored: Stored, report: Report, now: int, elapsed: nat,
                                               priceError: bool, presenceError: bool)
    requires NoFuture(Valids(Quotes(stored)), now) && AllTiesAgree(Valids(Quotes(stored)), now)
    ensures var shown := Displayed(Respond(Some(stored), report, now).1, elapsed, priceError, presenceError);
            var later := Respond(Some(stored), report, now + elapsed).1;
            && SourceNames(shown.contributors) == later.contributing
            && shown.mean == later.average
            && shown.spread == later.spread
            && shown.badge == if priceError then Offline
                              else if presenceError && later.status == Live then Server(Degraded)
                              else Server(later.status)
  {
    var quotes := Quotes(stored);
    PickedPrices(quotes, now, elapsed, 0);
    SamePricesSameAggregates(PicksAt(quotes, now, elapsed, 0), Contributors(Rows(quotes, now + elapsed)));
    CoverageShrinks(quotes, now, elapsed);
    NoRowsNoContributors(Rows(quotes, now));
    NoRowsNoContributors(Rows(quotes, now + elapsed));
  }

  // ---- Without assumptions the dashboard is never too optimistic ---------------------

  function Merit(status: PriceStatus): nat {
    match status
    case Live => 3
    case Degraded => 2
    case StalePrices => 1
    case Unavailable => 0
  }

  lemma {:induction false} PickCount(quotes: seq<Quote>, now: int, elapsed: nat, k: nat)
    requires k <= COUNT
    ensures |PicksAt(quotes, now, elapsed, k)| <= |ContributorsFrom(Rows(quotes, now + elapsed), k)| <= COUNT - k
    ensures |PicksAt(quotes, now, elapsed, k)| <= |ContributorsFrom(Rows(quotes, now), k)| <= COUNT - k
    decreases COUNT - k
  {
    if k < COUNT {
      PickCount(quotes, now, elapsed, k + 1);
      PicksFrom(quotes, now, elapsed, k);
      if Mine(quotes, now, elapsed, ALL[k]).Some? { PickIsFresh(quotes, now, elapsed, ALL[k]); }
    }
  }

  /** The dashboard's badge, by counts alone, is no better than the server's later status. */
  lemma {:induction false} BadgeByCounts(atResponse: nat, shown: nat, later: nat, anyRow: bool,
                                         healthy: bool, report: Report, data: Response, priceError: bool,
                                         presenceError: bool)
    requires shown <= atResponse <= COUNT && shown <= later <= COUNT
    requires !anyRow ==> atResponse == 0 && later == 0
    requires data.status == Demoted(StatusFrom(atResponse, anyRow, healthy), report)
    requires (data.sources != [] <==> anyRow) && data.configuredCount == COUNT
    ensures BadgeOf(data, shown, priceError, presenceError).Offline? <==> priceError
    ensures !priceError ==>
              Merit(BadgeOf(data, shown, priceError, presenceError).status)
              <= Merit(Demoted(StatusFrom(later, anyRow, healthy), report))
  {
  }

  /** Whatever is stored and whatever errors the dashboard met, it never counts more
      contributors and never shows a better status than the server would later. */
  lemma {:induction false} NeverTooOptimistic(stored: Stored, report: Report, now: int, elapsed: nat,
                                              priceError: bool, presenceError: bool)
    ensures var shown := Displayed(Respond(Some(stored), report, now).1, elapsed, priceError, presenceError);
            var later := Respond(Some(stored), report, now + elapsed).1;
            && |shown.contributors| <= |later.contributing|
            && (shown.badge.Offline? <==> priceError)
            && (shown.badge.Server? ==> Merit(shown.badge.status) <= Merit(later.status))
  {
    var quotes := Quotes(stored);
    var rows, laterRows := Rows(quotes, now), Rows(quotes, now + elapsed);
    PickCount(quotes, now, elapsed, 0);
    NoRowsNoContributors(rows);
    NoRowsNoContributors(laterRows);
    BadgeByCounts(|Contributors(rows)|, |PicksAt(quotes, now, elapsed, 0)|, |Contributors(laterRows)|,
                  rows != [], AllHealthy(stored.health), report, Respond(Some(stored), report, now).1,
                  priceError, presenceError);
  }

  /** Two quotes of one provider with one observation time. No merge writes such a list. */
  const TIED: Stored :=
    Stored(Some(Snapshot(60, [Quote("Kraken", 100.0, Some(50), LastTrade), Quote("Kraken", 200.0, Some(50), LastTrade)],
                         None, None, [], None)), [])

  lemma {:induction false} OneRow(b: Row, p: Provider)
    requires Qualifies(b, p) && StillFresh(b, 0, SOURCE_MAX_AGE)
    ensures Newest([b], p) == Some(b) && Youngest([b], Name(p), 0, SOURCE_MAX_AGE) == Some(b)
  {
    var rows := [b];
    assert rows[..0] == [] && rows[1..] == [];
    assert Newest([], p) == None;
    assert Youngest([], Name(p), 0, SOURCE_MAX_AGE) == None;
  }

  lemma {:induction false} TiedPicks(a: Row, b: Row, p: Provider)
    requires Qualifies(a, p) && Qualifies(b, p) && a.age == b.age && a.quote.time == b.quote.time
    requires StillFresh(a, 0, SOURCE_MAX_AGE) && StillFresh(b, 0, SOURCE_MAX_AGE)
    ensures Newest([a, b], p) == Some(b) && Youngest([a, b], Name(p), 0, SOURCE_MAX_AGE) == Some(a)
    ensures forall q :: q != p ==> Newest([a, b], q).None?
  {
    var rows := [a, b];
    OneRow(a, p);
    OneRow(b, p);
    assert rows[..1] == [a] && rows[1..] == [b];
    forall q | q != p ensures Newest(rows, q).None? {
      NewestMeaning(rows, q);
      if Newest(rows, q).Some? { NameInjective(q, p); }
    }
  }

  lemma {:induction false} OneContributor(rows: seq<Row>, p: Provider, k: nat)
    requires k <= COUNT && Newest(rows, p).Some? && forall q :: q != p ==> Newest(rows, q).None?
    ensures ContributorsFrom(rows, k) == if k <= Index(p) then [Newest(rows, p).value] else []
    decreases COUNT - k
  {
    if k < COUNT {
      OneContributor(rows, p, k + 1);
      assert Index(ALL[k]) == k;
      assert ALL[k] == p <==> k == Index(p);
    }
  }

  lemma {:induction false} OnePick(rows: seq<Row>, source: string, elapsed: nat, maxAge: int)
    requires Youngest(rows, source, elapsed, maxAge).Some?
    ensures Picks(rows, [source], elapsed, maxAge) == [Youngest(rows, source, elapsed, maxAge).value]
  {
    PicksCons(rows, source, [], elapsed, maxAge);
    assert [source] + [] == [source];
  }

  lemma {:induction false} TiedRows()
    ensures var a, b := Quotes(TIED)[0], Quotes(TIED)[1];
            && Rows(Quotes(TIED), 60) == [RowOf(a, 60), RowOf(b, 60)]
            && Counts(a, 60, Kraken) && Counts(b, 60, Kraken)
  {
    var quotes := Quotes(TIED);
    var a, b := quotes[0], quotes[1];
    assert quotes == [a, b] && quotes[..1] == [a] && [a][..0] == [];
    assert Valids([a]) == [a];
    assert Valids(quotes) == quotes;
    assert Name(Kraken) == "Kraken";
    assert Configured("Kraken");
  }

  /** The server answers the price of the last, and the dashboard shows that of the first. */
  lemma {:induction false} TiesDiffer(report: Report)
    ensures var data := Respond(Some(TIED), report, 60).1;
            data.average == Some(200.0) && Displayed(data, 0, false, false).mean == Some(100.0)
  {
    var a, b := RowOf(Quotes(TIED)[0], 60), RowOf(Quotes(TIED)[1], 60);
    TiedRows();
    RowCounts(a.quote, 60, Kraken);
    RowCounts(b.quote, 60, Kraken);
    TiedPicks(a, b, Kraken);
    OneContributor([a, b], Kraken, 0);
    OnePick([a, b], Name(Kraken), 0, SOURCE_MAX_AGE);
    assert SourceNames([b]) == [Name(Kraken)];
    MeanOfPrices(a);
    MeanOfPrices(b);
  }

  lemma {:induction false} MeanOfPrices(row: Row)
    ensures Prices([row]) == [row.quote.price] && Mean(Prices([row])) == row.quote.price
  {
    var prices := Prices([row]);
    assert Sum(prices, 1) == Sum(prices, 0) + prices[0];
  }

  lemma {:induction false} TiedIsNotMerged(previous: seq<Quote>, fetched: seq<Quote>)
    ensures !Merges(previous, fetched, Quotes(TIED))
  {
    var quotes := Quotes(TIED);
    BeforeIrreflexive(quotes[0].source);
    assert quotes[0].source == quotes[1].source;
    assert !Before(quotes[0].source, quotes[1].source);
  }
}
