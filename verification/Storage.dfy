/** Storage (src/storage.rs): typed records against constrained rows, transactions that
    may fail after any statement, pruning and migration at startup. Tables are plain
    collections; a query with ORDER BY returns some ordered permutation of its rows. */
module Storage {
  import opened Common
  import opened Providers
  import opened Errors
  import opened Names
  import opened Pricing

  datatype SnapshotRow = SnapshotRow(
    id: nat,
    fetchedAt: int,
    average: Option<real>,
    spread: Option<real>,
    warnings: Option<seq<string>>,   // None: text that does not decode
    refreshedSource: Option<string>)

  datatype QuoteRow = QuoteRow(snapshotId: nat, source: string, price: real, time: Option<int>, kind: string)

  datatype HealthRow = HealthRow(
    outcome: string,
    attemptedAt: Option<int>,
    category: Option<string>,
    message: Option<string>,
    httpStatus: Option<int>)

  /** `observations` tells whether source_prices has the observation columns; `health` is
      None while the provider_health table does not exist. */
  datatype Tables = Tables(
    version: int,
    observations: bool,
    snapshots: seq<SnapshotRow>,
    quotes: seq<QuoteRow>,
    health: Option<map<string, HealthRow>>,
    nextId: nat)

  const SCHEMA_VERSION: int := 1

  datatype ReadError = BadWarnings | BadQuote | BadHealth

  // ---- Text encodings ------------------------------------------------------------

  function KindText(kind: QuoteKind): string {
    match kind
    case Aggregate => "aggregate"
    case Spot => "spot"
    case LastTrade => "last_trade"
    case Bid => "bid"
    case UnknownKind => "unknown"
  }

  function KindFrom(text: string): Option<QuoteKind> {
    if text == "aggregate" then Some(Aggregate)
    else if text == "spot" then Some(Spot)
    else if text == "last_trade" then Some(LastTrade)
    else if text == "bid" then Some(Bid)
    else if text == "unknown" then Some(UnknownKind)
    else None
  }

  function CategoryText(category: ErrorCategory): string {
    match category
    case TimeoutError => "timeout"
    case TransportError => "transport"
    case HttpError => "http"
    case InvalidPayloadError => "invalid_payload"
    case InvalidPriceError => "invalid_price"
  }

  function CategoryFrom(text: string): Option<ErrorCategory> {
    if text == "timeout" then Some(TimeoutError)
    else if text == "transport" then Some(TransportError)
    else if text == "http" then Some(HttpError)
    else if text == "invalid_payload" then Some(InvalidPayloadError)
    else if text == "invalid_price" then Some(InvalidPriceError)
    else None
  }

  lemma {:induction false} KindRoundTrip(kind: QuoteKind)
    ensures KindFrom(KindText(kind)) == Some(kind)
  {
    assert |"aggregate"| == 9 && |"spot"| == 4 && |"last_trade"| == 10 && |"bid"| == 3 && |"unknown"| == 7;
  }

  lemma {:induction false} CategoryRoundTrip(category: ErrorCategory)
    ensures CategoryFrom(CategoryText(category)) == Some(category)
    ensures CategoryText(category) == "http" <==> category == HttpError
  {
    assert |"timeout"| == 7 && |"transport"| == 9 && |"http"| == 4;
    assert |"invalid_payload"| == 15 && |"invalid_price"| == 13;
  }

  // ---- Provider health rows ---------------------------------------------------------

  function EncodeHealth(attempt: LastAttempt): HealthRow {
    match attempt
    case NoAttempt => HealthRow("unknown", None, None, None, None)
    case Success(at) => HealthRow("success", Some(at), None, None, None)
    case Failure(at, error) =>
      HealthRow("failure", Some(at), Some(CategoryText(error.category)), Some(error.message),
                if error.httpStatus.Some? then Some(error.httpStatus.value as int) else None)
  }

  function DecodeHealth(row: HealthRow): Option<LastAttempt> {
    if row.outcome == "unknown" then Some(NoAttempt)
    else if row.outcome == "success" then
      if row.attemptedAt.Some? then Some(Success(row.attemptedAt.value)) else None
    else if row.outcome == "failure" then
      if row.attemptedAt.Some? && row.category.Some? && CategoryFrom(row.category.value).Some? && row.message.Some?
         && (row.httpStatus.Some? ==> 0 <= row.httpStatus.value < 65536)
      then Some(Failure(row.attemptedAt.value,
                        SourceError(CategoryFrom(row.category.value).value, row.message.value,
                                    if row.httpStatus.Some? then Some(row.httpStatus.value as nat) else None)))
      else None
    else None
  }

  /** The table's column and row constraints. */
  predicate HealthCheck(row: HealthRow) {
    && row.outcome in ["unknown", "success", "failure"]
    && (row.category.Some? ==> CategoryFrom(row.category.value).Some?)
    && (row.httpStatus.Some? ==> 100 <= row.httpStatus.value <= 599)
    && (|| (row.outcome == "unknown" && row.attemptedAt.None? && row.category.None? && row.message.None?
            && row.httpStatus.None?)
        || (row.outcome == "success" && row.attemptedAt.Some? && row.category.None? && row.message.None?
            && row.httpStatus.None?)
        || (row.outcome == "failure" && row.attemptedAt.Some? && row.category.Some? && row.message.Some?
            && (row.category.value == "http" <==> row.httpStatus.Some?)))
  }

  /** Status codes are 16-bit numbers. */
  predicate Representable(attempt: LastAttempt) {
    attempt.Failure? && attempt.error.httpStatus.Some? ==> attempt.error.httpStatus.value < 65536
  }

  lemma {:induction false} OutcomesDiffer()
    ensures "unknown" != "success" && "unknown" != "failure" && "success" != "failure"
  {
    assert "unknown"[0] == 'u' && "success"[0] == 's' && "failure"[0] == 'f';
  }

  /** Every health record decodes to itself. */
  lemma {:induction false} HealthRoundTrip(attempt: LastAttempt)
    requires Representable(attempt)
    ensures DecodeHealth(EncodeHealth(attempt)) == Some(attempt)
  {
    OutcomesDiffer();
    if attempt.Failure? { CategoryRoundTrip(attempt.error.category); }
  }

  /** What a row decodes to. */
  lemma {:induction false} DecodesHealthExactly(row: HealthRow, attempt: LastAttempt)
    ensures DecodeHealth(row) == Some(attempt)
            <==> match attempt
                 case NoAttempt => row.outcome == "unknown"
                 case Success(at) => row.outcome == "success" && row.attemptedAt == Some(at)
                 case Failure(at, e) =>
                   && row.outcome == "failure" && row.attemptedAt == Some(at) && row.message == Some(e.message)
                   && row.category == Some(CategoryText(e.category))
                   && row.httpStatus == (if e.httpStatus.Some? then Some(e.httpStatus.value as int) else None)
                   && Representable(attempt)
  {
    OutcomesDiffer();
    forall c: ErrorCategory ensures CategoryFrom(CategoryText(c)) == Some(c) { CategoryRoundTrip(c); }
    if row.category.Some? && CategoryFrom(row.category.value).Some? {
      assert CategoryText(CategoryFrom(row.category.value).value) == row.category.value;
    }
  }

  /** Failures carry a status exactly when they are HTTP failures, and one in 100..599. */
  predicate Consistent(attempt: LastAttempt) {
    attempt.Failure? ==>
      && (attempt.error.httpStatus.Some? <==> attempt.error.category == HttpError)
      && (attempt.error.httpStatus.Some? ==> 100 <= attempt.error.httpStatus.value <= 599)
  }

  /** The table admits exactly the encodings of consistent records, so every admitted row
      decodes, and to the record it encodes. */
  lemma {:induction false} CheckAdmitsEncodings(row: HealthRow)
    ensures HealthCheck(row)
            <==> && DecodeHealth(row).Some? && Consistent(DecodeHealth(row).value)
                 && EncodeHealth(DecodeHealth(row).value) == row
  {
    OutcomesDiffer();
    forall c: ErrorCategory ensures CategoryFrom(CategoryText(c)) == Some(c)
                                    && (CategoryText(c) == "http" <==> c == HttpError) {
      CategoryRoundTrip(c);
    }
    if row.category.Some? && CategoryFrom(row.category.value).Some? {
      assert CategoryText(CategoryFrom(row.category.value).value) == row.category.value;
    }
    assert HealthCheck(row) ==> row.outcome == "unknown" || row.outcome == "success" || row.outcome == "failure";
    assert row.outcome == "unknown" || row.outcome == "success" || row.outcome == "failure" ==>
             row.outcome in ["unknown", "success", "failure"] by {
      assert ["unknown", "success", "failure"][0] == "unknown" && ["unknown", "success", "failure"][1] == "success"
             && ["unknown", "success", "failure"][2] == "failure";
    }
  }

  /** The health record of a failed fetch. */
  function FailureHealth(e: ProviderError, attemptedAt: int): LastAttempt {
    Failure(attemptedAt, HealthError(e))
  }

  /** A failed fetch's record passes the table constraints exactly when its HTTP status, if
      it has one, lies in 100..599; successes always pass. */
  lemma {:induction false} HealthAcceptedExactly(e: ProviderError, attemptedAt: int)
    ensures HealthCheck(EncodeHealth(FailureHealth(e, attemptedAt)))
            <==> (e.kind.Http? ==> 100 <= e.kind.status <= 599)
    ensures HealthCheck(EncodeHealth(Success(attemptedAt)))
  {
    OutcomesDiffer();
    CategoryRoundTrip(HealthError(e).category);
    assert "failure" in ["unknown", "success", "failure"] && "success" in ["unknown", "success", "failure"];
  }

  // ---- The tables after each operation -----------------------------------------------

  function EncodeQuotes(id: nat, quotes: seq<Quote>): (rows: seq<QuoteRow>)
    ensures |rows| == |quotes|
  {
    seq(|quotes|, i requires 0 <= i < |quotes| =>
      QuoteRow(id, quotes[i].source, quotes[i].price, quotes[i].time, KindText(quotes[i].kind)))
  }

  function DecodeQuote(row: QuoteRow): Option<Quote> {
    var kind := KindFrom(row.kind);
    if kind.Some? then Some(Quote(row.source, row.price, row.time, kind.value)) else None
  }

  function SnapshotIds(rows: seq<SnapshotRow>): set<nat> {
    set row | row in rows :: row.id
  }

  /** Rows that survive a delete of the given snapshots: the foreign key cascades. */
  function Surviving(quotes: seq<QuoteRow>, deleted: set<nat>): seq<QuoteRow> {
    if quotes == [] then []
    else
      var rest := Surviving(quotes[..|quotes| - 1], deleted);
      if quotes[|quotes| - 1].snapshotId in deleted then rest else rest + [quotes[|quotes| - 1]]
  }

  function RowsOf(quotes: seq<QuoteRow>, id: nat): seq<QuoteRow> {
    if quotes == [] then []
    else
      var rest := RowsOf(quotes[..|quotes| - 1], id);
      if quotes[|quotes| - 1].snapshotId == id then rest + [quotes[|quotes| - 1]] else rest
  }

  function Replaced(t: Tables, s: Snapshot): Tables {
    t.(snapshots := [SnapshotRow(t.nextId, s.fetchedAt, s.averagePrice, s.spread, Some(s.warnings), s.refreshedSource)],
       quotes := Surviving(t.quotes, SnapshotIds(t.snapshots)) + EncodeQuotes(t.nextId, s.sources),
       nextId := t.nextId + 1)
  }

  function Upserted(rows: map<string, HealthRow>, health: seq<ProviderHealth>): map<string, HealthRow> {
    if health == [] then rows
    else Upserted(rows, health[..|health| - 1])
         [health[|health| - 1].source := EncodeHealth(health[|health| - 1].lastAttempt)]
  }

  function AfterStore(t: Tables, snapshot: Option<Snapshot>, health: seq<ProviderHealth>): Tables
    requires t.health.Some?
  {
    var t' := if snapshot.Some? then Replaced(t, snapshot.value) else t;
    t'.(health := Some(Upserted(t.health.value, health)))
  }

  /** What a refresh transaction accepts. */
  predicate Acceptable(snapshot: Option<Snapshot>, health: seq<ProviderHealth>) {
    && (snapshot.Some? ==> AllValid(snapshot.value.sources))
    && forall h :: h in health ==> HealthCheck(EncodeHealth(h.lastAttempt))
  }

  /** Row ids come from a counter that never goes back. */
  predicate WellFormed(t: Tables) {
    && (forall i, j :: 0 <= i < j < |t.snapshots| ==> t.snapshots[i].id != t.snapshots[j].id)
    && (forall s :: s in t.snapshots ==> s.id < t.nextId)
    && (forall q :: q in t.quotes ==> q.snapshotId < t.nextId)
  }

  // ---- Reading -------------------------------------------------------------------------

  predicate Newer(a: SnapshotRow, b: SnapshotRow) {
    a.fetchedAt > b.fetchedAt || (a.fetchedAt == b.fetchedAt && a.id > b.id)
  }

  /** ORDER BY fetched_at_unix DESC, id DESC LIMIT 1. */
  function Latest(rows: seq<SnapshotRow>): (r: Option<SnapshotRow>)
    ensures r.None? <==> rows == []
    ensures r.Some? ==> r.value in rows
  {
    if rows == [] then None
    else
      var best := Latest(rows[..|rows| - 1]);
      if best.None? || Newer(rows[|rows| - 1], best.value) then Some(rows[|rows| - 1]) else best
  }

  /** No row is newer than the one selected: a later fetch wins, then the larger id. */
  lemma {:induction false} LatestIsNewest(rows: seq<SnapshotRow>, r: SnapshotRow)
    requires r in rows
    ensures Latest(rows).Some?
    ensures var best := Latest(rows).value;
            r.fetchedAt < best.fetchedAt || (r.fetchedAt == best.fetchedAt && r.id <= best.id)
    decreases |rows|
  {
    var n := |rows| - 1;
    assert rows == rows[..n] + [rows[n]];
    if r in rows[..n] { LatestIsNewest(rows[..n], r); }
  }

  /** A bijection on the indices below n. */
  predicate Permutation(perm: seq<nat>, n: nat) {
    && |perm| == n
    && (forall i :: 0 <= i < n ==> perm[i] < n)
    && (forall i, j :: 0 <= i < j < n ==> perm[i] != perm[j])
    && (forall k :: 0 <= k < n ==> k in perm)
  }

  /** `out` may be returned for `rows` by a query ordered by provider. */
  ghost predicate OrderedResult(rows: seq<QuoteRow>, out: seq<QuoteRow>) {
    exists perm: seq<nat> ::
      && Permutation(perm, |rows|)
      && |out| == |rows|
      && (forall i :: 0 <= i < |out| ==> out[i] == rows[perm[i]])
      && (forall i, j :: 0 <= i < j < |out| ==> !Before(out[j].source, out[i].source))
  }

  function DecodeQuotes(rows: seq<QuoteRow>): Result<seq<Quote>, ReadError> {
    if rows == [] then Ok([])
    else
      var rest := DecodeQuotes(rows[..|rows| - 1]);
      var last := DecodeQuote(rows[|rows| - 1]);
      if rest.Err? then rest else if last.None? then Err(BadQuote) else Ok(rest.value + [last.value])
  }

  /** `r` may be returned by reading the snapshot. */
  ghost predicate SnapshotRead(t: Tables, r: Result<Option<Snapshot>, ReadError>) {
    match Latest(t.snapshots)
    case None => r == Ok(None)
    case Some(row) =>
      if row.warnings.None? then r == Err(BadWarnings)
      else
        exists out :: OrderedResult(RowsOf(t.quotes, row.id), out) && r == Assembled(row, DecodeQuotes(out))
  }

  function Assembled(row: SnapshotRow, sources: Result<seq<Quote>, ReadError>): Result<Option<Snapshot>, ReadError>
    requires row.warnings.Some?
  {
    match sources
    case Err(e) => Err(e)
    case Ok(quotes) =>
      Ok(Some(Snapshot(row.fetchedAt, quotes, row.average, row.spread, row.warnings.value, row.refreshedSource)))
  }

  /** A read that returns a snapshot returns the fields of the newest row. */
  lemma {:induction false} ReadsNewest(t: Tables, s: Snapshot, r: SnapshotRow)
    requires SnapshotRead(t, Ok(Some(s))) && r in t.snapshots
    ensures exists best :: best in t.snapshots
              && best == SnapshotRow(best.id, s.fetchedAt, s.averagePrice, s.spread, Some(s.warnings),
                                     s.refreshedSource)
              && (r.fetchedAt < s.fetchedAt || (r.fetchedAt == s.fetchedAt && r.id <= best.id))
  {
    LatestIsNewest(t.snapshots, r);
    var best := Latest(t.snapshots).value;
    var out :| OrderedResult(RowsOf(t.quotes, best.id), out) && Ok(Some(s)) == Assembled(best, DecodeQuotes(out));
    assert best == SnapshotRow(best.id, s.fetchedAt, s.averagePrice, s.spread, Some(s.warnings), s.refreshedSource);
  }

  /** Decoding fails exactly when some row does not decode. */
  lemma {:induction false} DecodesExactly(rows: seq<QuoteRow>)
    ensures DecodeQuotes(rows).Ok? <==> forall r :: r in rows ==> DecodeQuote(r).Some?
    decreases |rows|
  {
    if rows != [] {
      DecodesExactly(rows[..|rows| - 1]);
      assert rows == rows[..|rows| - 1] + [rows[|rows| - 1]];
    }
  }

  /** A read finds nothing exactly without a snapshot, and fails exactly when the warnings or
      some quote of the newest one do not decode. */
  lemma {:induction false} ReadOutcome(t: Tables, r: Result<Option<Snapshot>, ReadError>)
    requires SnapshotRead(t, r)
    ensures r == Ok(None) <==> t.snapshots == []
    ensures r.Err? <==>
              && t.snapshots != []
              && var newest := Latest(t.snapshots).value;
                 newest.warnings.None?
                 || exists q :: q in RowsOf(t.quotes, newest.id) && DecodeQuote(q).None?
  {
    if t.snapshots != [] && Latest(t.snapshots).value.warnings.Some? {
      var rows := RowsOf(t.quotes, Latest(t.snapshots).value.id);
      var out :| OrderedResult(rows, out) && r == Assembled(Latest(t.snapshots).value, DecodeQuotes(out));
      SameRows(rows, out);
      DecodesExactly(out);
    }
  }

  lemma {:induction false} SameRows(rows: seq<QuoteRow>, out: seq<QuoteRow>)
    requires OrderedResult(rows, out)
    ensures forall q :: q in out <==> q in rows
  {
    var perm: seq<nat> :|
      && Permutation(perm, |rows|) && |out| == |rows|
      && (forall i :: 0 <= i < |out| ==> out[i] == rows[perm[i]])
      && (forall i, j :: 0 <= i < j < |out| ==> !Before(out[j].source, out[i].source));
    forall q | q in rows ensures q in out {
      var k: nat :| k < |rows| && rows[k] == q;
      assert k in perm;
      var i :| 0 <= i < |perm| && perm[i] == k;
      assert out[i] == q;
    }
  }

  // ---- Round trip ------------------------------------------------------------------------

  lemma {:induction false} RowsOfConcat(a: seq<QuoteRow>, b: seq<QuoteRow>, id: nat)
    ensures RowsOf(a + b, id) == RowsOf(a, id) + RowsOf(b, id)
    decreases |b|
  {
    if b == [] {
      assert a + b == a;
    } else {
      assert (a + b)[..|a + b| - 1] == a + b[..|b| - 1];
      RowsOfConcat(a, b[..|b| - 1], id);
    }
  }

  lemma {:induction false} RowsOfAll(rows: seq<QuoteRow>, id: nat)
    requires forall r :: r in rows ==> r.snapshotId == id
    ensures RowsOf(rows, id) == rows
    decreases |rows|
  {
    if rows != [] {
      assert rows[|rows| - 1] in rows;
      RowsOfAll(rows[..|rows| - 1], id);
      assert rows == rows[..|rows| - 1] + [rows[|rows| - 1]];
    }
  }

  lemma {:induction false} RowsOfNone(rows: seq<QuoteRow>, id: nat)
    requires forall r :: r in rows ==> r.snapshotId != id
    ensures RowsOf(rows, id) == []
    decreases |rows|
  {
    if rows != [] {
      assert rows[|rows| - 1] in rows;
      RowsOfNone(rows[..|rows| - 1], id);
    }
  }

  /** A cascading delete leaves the rows of every other snapshot alone. */
  lemma {:induction false} RowsOfSurviving(quotes: seq<QuoteRow>, deleted: set<nat>, id: nat)
    ensures RowsOf(Surviving(quotes, deleted), id) == if id in deleted then [] else RowsOf(quotes, id)
    ensures forall q :: q in Surviving(quotes, deleted) ==> q in quotes
    decreases |quotes|
  {
    if quotes != [] {
      var before, last := quotes[..|quotes| - 1], quotes[|quotes| - 1];
      RowsOfSurviving(before, deleted, id);
      var rest := Surviving(before, deleted);
      assert (rest + [last])[..|rest + [last]| - 1] == rest;
    }
  }

  /** The rows of a new snapshot are exactly the encoded quotes. */
  lemma {:induction false} NewRows(t: Tables, s: Snapshot)
    requires WellFormed(t)
    ensures RowsOf(Replaced(t, s).quotes, t.nextId) == EncodeQuotes(t.nextId, s.sources)
  {
    var kept := Surviving(t.quotes, SnapshotIds(t.snapshots));
    RowsOfSurviving(t.quotes, SnapshotIds(t.snapshots), t.nextId);
    RowsOfConcat(kept, EncodeQuotes(t.nextId, s.sources), t.nextId);
    RowsOfNone(kept, t.nextId);
    RowsOfAll(EncodeQuotes(t.nextId, s.sources), t.nextId);
  }

  lemma {:induction false} DecodeEncoded(rows: seq<QuoteRow>)
    requires forall r :: r in rows ==> DecodeQuote(r).Some?
    ensures DecodeQuotes(rows).Ok? && |DecodeQuotes(rows).value| == |rows|
    ensures forall i :: 0 <= i < |rows| ==> DecodeQuote(rows[i]) == Some(DecodeQuotes(rows).value[i])
    decreases |rows|
  {
    if rows != [] {
      assert rows[|rows| - 1] in rows;
      DecodeEncoded(rows[..|rows| - 1]);
    }
  }

  /** Encoded rows decode one by one, in whatever order they come. */
  lemma {:induction false} PermutedDecodes(id: nat, quotes: seq<Quote>, out: seq<QuoteRow>, perm: seq<nat>)
    requires Permutation(perm, |quotes|) && |out| == |quotes|
    requires forall i :: 0 <= i < |out| ==> out[i] == EncodeQuotes(id, quotes)[perm[i]]
    ensures DecodeQuotes(out).Ok? && |DecodeQuotes(out).value| == |quotes|
    ensures forall i :: 0 <= i < |out| ==> DecodeQuotes(out).value[i] == quotes[perm[i]]
  {
    forall i | 0 <= i < |out| ensures DecodeQuote(out[i]) == Some(quotes[perm[i]]) {
      KindRoundTrip(quotes[perm[i]].kind);
    }
    DecodeEncoded(out);
  }

  lemma {:induction false} PermutedOrdered(quotes: seq<Quote>, decoded: seq<Quote>, perm: seq<nat>)
    requires Ordered(quotes) && Permutation(perm, |quotes|) && |decoded| == |quotes|
    requires forall i :: 0 <= i < |decoded| ==> decoded[i] == quotes[perm[i]]
    requires forall i, j :: 0 <= i < j < |perm| ==> !Before(quotes[perm[j]].source, quotes[perm[i]].source)
    ensures decoded == quotes
  {
    forall i, j | 0 <= i < j < |decoded| ensures Before(decoded[i].source, decoded[j].source) {
      var a, b := perm[i], perm[j];
      assert !Before(quotes[b].source, quotes[a].source);
      assert a < b;
    }
    forall q | q in quotes ensures q in decoded {
      var k: nat :| k < |quotes| && quotes[k] == q;
      assert k in perm;
      var i :| 0 <= i < |perm| && perm[i] == k;
      assert decoded[i] == q;
    }
    OrderedUnique(decoded, quotes);
  }

  /** Any ordered permutation of encoded ordered quotes decodes to the quotes themselves. */
  lemma {:induction false} OrderedDecodes(id: nat, quotes: seq<Quote>, out: seq<QuoteRow>)
    requires Ordered(quotes) && OrderedResult(EncodeQuotes(id, quotes), out)
    ensures DecodeQuotes(out) == Ok(quotes)
  {
    var rows := EncodeQuotes(id, quotes);
    var perm: seq<nat> :|
      && Permutation(perm, |rows|) && |out| == |rows|
      && (forall i :: 0 <= i < |out| ==> out[i] == rows[perm[i]])
      && (forall i, j :: 0 <= i < j < |out| ==> !Before(out[j].source, out[i].source));
    PermutedDecodes(id, quotes, out, perm);
    forall i, j | 0 <= i < j < |perm| ensures !Before(quotes[perm[j]].source, quotes[perm[i]].source) {
      assert out[i].source == quotes[perm[i]].source && out[j].source == quotes[perm[j]].source;
    }
    PermutedOrdered(quotes, DecodeQuotes(out).value, perm);
  }

  /** Storing a merged snapshot and reading it back gives the same record, order included,
      whatever ordered permutation the query returns. */
  lemma {:induction false} SnapshotRoundTrip(t: Tables, s: Snapshot, health: seq<ProviderHealth>,
                                             r: Result<Option<Snapshot>, ReadError>)
    requires WellFormed(t) && t.health.Some? && Ordered(s.sources)
    requires SnapshotRead(AfterStore(t, Some(s), health), r)
    ensures r == Ok(Some(s))
  {
    NewRows(t, s);
    var t' := AfterStore(t, Some(s), health);
    assert t'.snapshots[..0] == [];
    var row := t'.snapshots[0];
    assert Latest(t'.snapshots) == Some(row);
    var out :| OrderedResult(RowsOf(t'.quotes, row.id), out) && r == Assembled(row, DecodeQuotes(out));
    OrderedDecodes(t.nextId, s.sources, out);
  }

  /** A batch without quotes leaves what a read returns as it was. */
  lemma {:induction false} HealthOnlyStore(t: Tables, health: seq<ProviderHealth>,
                                           r: Result<Option<Snapshot>, ReadError>)
    requires t.health.Some?
    ensures SnapshotRead(AfterStore(t, None, health), r) <==> SnapshotRead(t, r)
  {
  }

  lemma {:induction false} StoreWellFormed(t: Tables, snapshot: Option<Snapshot>,
                                           health: seq<ProviderHealth>)
    requires WellFormed(t) && t.health.Some?
    ensures WellFormed(AfterStore(t, snapshot, health))
  {
    RowsOfSurviving(t.quotes, SnapshotIds(t.snapshots), t.nextId);
  }

  /** Every quote row belongs to a stored snapshot, as the foreign key demands. */
  predicate Referential(t: Tables) {
    forall q :: q in t.quotes ==> q.snapshotId in SnapshotIds(t.snapshots)
  }

  lemma {:induction false} SurvivingMeaning(quotes: seq<QuoteRow>, deleted: set<nat>)
    ensures forall q :: q in Surviving(quotes, deleted) <==> q in quotes && q.snapshotId !in deleted
    decreases |quotes|
  {
    if quotes != [] {
      SurvivingMeaning(quotes[..|quotes| - 1], deleted);
      assert quotes == quotes[..|quotes| - 1] + [quotes[|quotes| - 1]];
    }
  }

  lemma {:induction false} NoneSurvive(quotes: seq<QuoteRow>, deleted: set<nat>)
    requires forall q :: q in quotes ==> q.snapshotId in deleted
    ensures Surviving(quotes, deleted) == []
    decreases |quotes|
  {
    if quotes != [] {
      assert quotes[|quotes| - 1] in quotes;
      NoneSurvive(quotes[..|quotes| - 1], deleted);
    }
  }

  /** A stored snapshot replaces all others, quotes included. */
  lemma {:induction false} StoreReplaces(t: Tables, s: Snapshot, health: seq<ProviderHealth>)
    requires Referential(t) && t.health.Some?
    ensures var t' := AfterStore(t, Some(s), health);
            && |t'.snapshots| == 1 && t'.snapshots[0].id == t.nextId && t'.nextId == t.nextId + 1
            && |t'.quotes| == |s.sources|
            && (forall q :: q in t'.quotes ==> q.snapshotId == t'.snapshots[0].id)
            && Referential(t')
  {
    NoneSurvive(t.quotes, SnapshotIds(t.snapshots));
    assert t.nextId in SnapshotIds(AfterStore(t, Some(s), health).snapshots);
  }

  /** The last record of a source in a batch. */
  function LastHealth(health: seq<ProviderHealth>, source: string): Option<LastAttempt> {
    if health == [] then None
    else if health[|health| - 1].source == source then Some(health[|health| - 1].lastAttempt)
    else LastHealth(health[..|health| - 1], source)
  }

  /** The upserts replace exactly the rows of the batch's sources. */
  lemma {:induction false} UpsertMeaning(rows: map<string, HealthRow>, health: seq<ProviderHealth>,
                                         source: string)
    ensures var after := Upserted(rows, health);
            match LastHealth(health, source)
            case Some(attempt) => source in after && after[source] == EncodeHealth(attempt)
            case None => (source in after <==> source in rows) && (source in rows ==> after[source] == rows[source])
    decreases |health|
  {
    if health != [] { UpsertMeaning(rows, health[..|health| - 1], source); }
  }

  // ---- Startup ---------------------------------------------------------------------------

  function KindByName(source: string): QuoteKind {
    if source == Name(CoinGecko) then Aggregate
    else if source == Name(Coinbase) then Spot
    else if source == Name(Kraken) then LastTrade
    else if source == Name(Gemini) then Bid
    else UnknownKind
  }

  /** A legacy quote gets an unknown observation time and the kind its provider implies. */
  function Relabelled(row: QuoteRow): QuoteRow {
    row.(time := None, kind := KindText(KindByName(row.source)))
  }

  function RelabelledRows(rows: seq<QuoteRow>): (r: seq<QuoteRow>)
    ensures |r| == |rows|
  {
    seq(|rows|, i requires 0 <= i < |rows| => Relabelled(rows[i]))
  }

  function SeededHealth(): map<string, HealthRow> {
    var row := EncodeHealth(NoAttempt);
    map[Name(CoinGecko) := row, Name(Coinbase) := row, Name(Kraken) := row, Name(Gemini) := row]
  }

  /** The migration fails when the columns or the table it adds already exist. */
  predicate Migratable(t: Tables) {
    !t.observations && t.health.None?
  }

  function Migrated(t: Tables): Tables {
    t.(observations := true, quotes := RelabelledRows(t.quotes), health := Some(SeededHealth()))
  }

  /** DELETE of every snapshot but the latest, with its cascade. */
  function PrunedTables(t: Tables): Tables {
    match Latest(t.snapshots)
    case None => t
    case Some(row) => t.(snapshots := [row], quotes := Surviving(t.quotes, SnapshotIds(t.snapshots) - {row.id}))
  }

  predicate Startable(t: Tables) {
    t.version == SCHEMA_VERSION || (t.version == 0 && Migratable(t))
  }

  function AfterInit(t: Tables): Tables {
    PrunedTables(if t.version == 0 then Migrated(t) else t).(version := SCHEMA_VERSION)
  }

  /** The kind a name implies is the kind its provider's fetches carry. */
  lemma {:induction false} KindsAgree(source: string)
    ensures forall p :: KindByName(Name(p)) == KindOf(p)
    ensures !Configured(source) ==> KindByName(source) == UnknownKind
    ensures KindByName("CoinGecko") == Aggregate && KindByName("Coinbase") == Spot
            && KindByName("Kraken") == LastTrade && KindByName("Gemini") == Bid
  {
    forall p ensures KindByName(Name(p)) == KindOf(p) {
      forall q | Name(q) == Name(p) ensures p == q { NameInjective(p, q); }
    }
    assert KindByName(Name(CoinGecko)) == KindOf(CoinGecko);
    assert KindByName(Name(Coinbase)) == KindOf(Coinbase);
    assert KindByName(Name(Kraken)) == KindOf(Kraken);
    assert KindByName(Name(Gemini)) == KindOf(Gemini);
  }

  /** Startup, with or without migration, keeps exactly the newest snapshot and its quotes. */
  lemma {:induction false} StartupKeepsNewest(t: Tables, r: SnapshotRow)
    requires Startable(t) && Referential(t) && r in t.snapshots
    ensures var t' := AfterInit(t);
            && |t'.snapshots| == 1 && t'.snapshots[0] in t.snapshots
            && (r.fetchedAt < t'.snapshots[0].fetchedAt
                || (r.fetchedAt == t'.snapshots[0].fetchedAt && r.id <= t'.snapshots[0].id))
            && (forall q :: q in t'.quotes ==> q.snapshotId == t'.snapshots[0].id)
            && Referential(t')
  {
    LatestIsNewest(t.snapshots, r);
    var migrated := if t.version == 0 then Migrated(t) else t;
    var best := Latest(t.snapshots).value;
    SurvivingMeaning(migrated.quotes, SnapshotIds(t.snapshots) - {best.id});
    forall q | q in migrated.quotes ensures q.snapshotId in SnapshotIds(t.snapshots) {
      var i :| 0 <= i < |migrated.quotes| && migrated.quotes[i] == q;
      assert t.quotes[i] in t.quotes && t.quotes[i].snapshotId == q.snapshotId;
    }
    assert best.id in SnapshotIds([best]);
  }

  lemma {:induction false} LatestOfOne(row: SnapshotRow)
    ensures Latest([row]) == Some(row)
  {
    assert [row][..0] == [];
  }

  /** Pruning keeps exactly the row a read selects, with all its quotes. */
  lemma {:induction false} PruneKeepsReads(t: Tables, r: Result<Option<Snapshot>, ReadError>)
    ensures Latest(PrunedTables(t).snapshots) == Latest(t.snapshots)
    ensures SnapshotRead(PrunedTables(t), r) <==> SnapshotRead(t, r)
  {
    if Latest(t.snapshots).Some? {
      var row := Latest(t.snapshots).value;
      LatestOfOne(row);
      RowsOfSurviving(t.quotes, SnapshotIds(t.snapshots) - {row.id}, row.id);
    }
  }

  /** Startup on the current version changes nothing a read returns, nor the health. */
  lemma {:induction false} StartupPreservesReads(t: Tables, r: Result<Option<Snapshot>, ReadError>)
    requires t.version == SCHEMA_VERSION
    ensures SnapshotRead(AfterInit(t), r) <==> SnapshotRead(t, r)
    ensures AfterInit(t).health == t.health
  {
    PruneKeepsReads(t, r);
  }

  lemma {:induction false} RelabelledRowsOf(rows: seq<QuoteRow>, id: nat)
    ensures RowsOf(RelabelledRows(rows), id) == RelabelledRows(RowsOf(rows, id))
    decreases |rows|
  {
    if rows != [] {
      var n := |rows| - 1;
      RelabelledRowsOf(rows[..n], id);
      assert RelabelledRows(rows)[..n] == RelabelledRows(rows[..n]);
    }
  }

  /** Startup on an unversioned database keeps the latest snapshot with all its quotes; only
      observation times and kinds are rewritten, and every provider's health is unknown. */
  lemma {:induction false} MigrationKeepsLatest(t: Tables)
    requires t.version == 0 && Migratable(t)
    ensures var t' := AfterInit(t);
            && Latest(t'.snapshots) == Latest(t.snapshots)
            && (Latest(t.snapshots).Some? ==>
                  RowsOf(t'.quotes, Latest(t.snapshots).value.id)
                  == RelabelledRows(RowsOf(t.quotes, Latest(t.snapshots).value.id)))
            && t'.version == SCHEMA_VERSION
            && t'.health.Some?
            && (forall s :: s in t'.health.value <==> Configured(s))
            && (forall s :: s in t'.health.value ==> DecodeHealth(t'.health.value[s]) == Some(NoAttempt))
  {
    if Latest(t.snapshots).Some? {
      var row := Latest(t.snapshots).value;
      LatestOfOne(row);
      RowsOfSurviving(Migrated(t).quotes, SnapshotIds(t.snapshots) - {row.id}, row.id);
      RelabelledRowsOf(t.quotes, row.id);
    }
  }

  /** Every migrated quote reads back with its name's kind and no observation time. */
  lemma {:induction false} MigratedQuotesDecode(row: QuoteRow)
    ensures DecodeQuote(Relabelled(row)) == Some(Quote(row.source, row.price, None, KindByName(row.source)))
  {
    KindRoundTrip(KindByName(row.source));
  }

  lemma {:induction false} SurvivingNone(quotes: seq<QuoteRow>)
    ensures Surviving(quotes, {}) == quotes
    decreases |quotes|
  {
    if quotes != [] {
      SurvivingNone(quotes[..|quotes| - 1]);
      assert quotes == quotes[..|quotes| - 1] + [quotes[|quotes| - 1]];
    }
  }

  /** A second startup changes nothing. */
  lemma {:induction false} StartupIdempotent(t: Tables)
    requires Startable(t)
    ensures Startable(AfterInit(t)) && AfterInit(AfterInit(t)) == AfterInit(t)
  {
    var t' := AfterInit(t);
    if Latest(t.snapshots).Some? {
      var row := Latest(t.snapshots).value;
      LatestOfOne(row);
      assert SnapshotIds([row]) - {row.id} == {};
      SurvivingNone(t'.quotes);
    }
  }

  // ---- The database ------------------------------------------------------------------------

  datatype Failed = Failed

  /** The committed tables. `fails(n)` decides whether the n-th statement of a transaction
      fails; a transaction that fails leaves the committed tables alone. */
  class Database {
    var tables: Tables

    constructor (tables: Tables)
      ensures this.tables == tables
    {
      this.tables := tables;
    }

    /** One refresh transaction: quotes and health together or not at all. */
    method StoreRefresh(snapshot: Option<Snapshot>, health: seq<ProviderHealth>, fails: nat -> bool)
      returns (r: Result<(), Failed>)
      requires tables.health.Some?
      modifies this
      ensures r.Ok? ==> tables == AfterStore(old(tables), snapshot, health) && Acceptable(snapshot, health)
      ensures r.Err? ==> tables == old(tables)
      ensures (forall n: nat :: !fails(n)) ==> (r.Ok? <==> Acceptable(snapshot, health))
    {
      var staged := tables;
      var n := 0;
      if snapshot.Some? {
        var written;
        written, n := WriteSnapshot(staged, snapshot.value, fails);
        if written.Err? {
          return Err(Failed);
        }
        staged := written.value;
      }
      var rows := WriteHealth(staged.health.value, health, n, fails);
      if rows.Err? || fails(n + |health|) {
        return Err(Failed);
      }
      tables := staged.(health := Some(rows.value));
      r := Ok(());
    }

    /** Upserts the batch's health records, one statement each. */
    method WriteHealth(before: map<string, HealthRow>, health: seq<ProviderHealth>, n: nat, fails: nat -> bool)
      returns (r: Result<map<string, HealthRow>, Failed>)
      ensures r.Ok? ==>
                && r.value == Upserted(before, health)
                && forall h :: h in health ==> HealthCheck(EncodeHealth(h.lastAttempt))
      ensures (forall k: nat :: !fails(k)) ==>
                (r.Ok? <==> forall h :: h in health ==> HealthCheck(EncodeHealth(h.lastAttempt)))
    {
      var rows := before;
      var i := 0;
      while i < |health|
        invariant i <= |health|
        invariant rows == Upserted(before, health[..i])
        invariant forall k :: 0 <= k < i ==> HealthCheck(EncodeHealth(health[k].lastAttempt))
      {
        var row := EncodeHealth(health[i].lastAttempt);
        assert health[..i + 1][..i] == health[..i];
        if fails(n + i) || !HealthCheck(row) {
          assert health[i] in health;
          return Err(Failed);
        }
        rows := rows[health[i].source := row];
        i := i + 1;
      }
      assert health[..i] == health;
      r := Ok(rows);
    }

    /** Replaces the stored snapshot in the staged tables. */
    method WriteSnapshot(before: Tables, s: Snapshot, fails: nat -> bool)
      returns (r: Result<Tables, Failed>, n: nat)
      ensures r.Ok? ==> r.value == Replaced(before, s) && AllValid(s.sources)
      ensures (forall k: nat :: !fails(k)) ==> (r.Ok? <==> AllValid(s.sources))
    {
      n := 0;
      var k := 0;
      while k < |s.sources|
        invariant k <= |s.sources| && forall i :: 0 <= i < k ==> ValidQuote(s.sources[i])
      {
        if s.sources[k].price <= 0.0 {
          assert s.sources[k] in s.sources;
          return Err(Failed), n;
        }
        k := k + 1;
      }
      if fails(0) || fails(1) {
        return Err(Failed), 0;
      }
      var id := before.nextId;
      var quotes := Surviving(before.quotes, SnapshotIds(before.snapshots));
      var snapshots := [SnapshotRow(id, s.fetchedAt, s.averagePrice, s.spread, Some(s.warnings), s.refreshedSource)];
      n := 2;
      var i := 0;
      while i < |s.sources|
        invariant i <= |s.sources|
        invariant quotes == Surviving(before.quotes, SnapshotIds(before.snapshots)) + EncodeQuotes(id, s.sources[..i])
      {
        if fails(n) {
          return Err(Failed), n;
        }
        var q := s.sources[i];
        assert EncodeQuotes(id, s.sources[..i + 1])
               == EncodeQuotes(id, s.sources[..i]) + [QuoteRow(id, q.source, q.price, q.time, KindText(q.kind))];
        quotes := quotes + [QuoteRow(id, q.source, q.price, q.time, KindText(q.kind))];
        n, i := n + 1, i + 1;
      }
      assert s.sources[..i] == s.sources;
      r := Ok(before.(snapshots := snapshots, quotes := quotes, nextId := id + 1));
    }

    /** Startup: migration, pruning and version in one transaction. */
    method InitDb(fails: nat -> bool) returns (r: Result<(), Failed>)
      modifies this
      ensures r.Ok? ==> Startable(old(tables)) && tables == AfterInit(old(tables))
      ensures r.Err? ==> tables == old(tables)
      ensures (forall n: nat :: !fails(n)) ==> (r.Ok? <==> Startable(old(tables)))
      ensures r.Ok? ==> old(tables).version == 1 || (old(tables).version == 0 && !old(tables).observations
                                                     && old(tables).health.None?)
    {
      var staged := tables;
      if staged.version == 0 {
        if fails(0) || staged.observations {
          return Err(Failed);
        }
        var quotes: seq<QuoteRow> := [];
        var i := 0;
        while i < |staged.quotes|
          invariant i <= |staged.quotes| && quotes == RelabelledRows(staged.quotes[..i])
        {
          assert RelabelledRows(staged.quotes[..i + 1])
              == RelabelledRows(staged.quotes[..i]) + [Relabelled(staged.quotes[i])];
          quotes := quotes + [Relabelled(staged.quotes[i])];
          i := i + 1;
        }
        assert staged.quotes[..i] == staged.quotes;
        if fails(1) || staged.health.Some? || fails(2) {
          return Err(Failed);
        }
        staged := staged.(observations := true, quotes := quotes, health := Some(SeededHealth()));
      } else if staged.version != SCHEMA_VERSION {
        return Err(Failed);
      }
      if fails(3) || fails(4) || fails(5) {
        return Err(Failed);
      }
      tables := PrunedTables(staged).(version := SCHEMA_VERSION);
      r := Ok(());
    }

    /** The snapshot as one read transaction sees it. */
    method ReadSnapshot() returns (r: Result<Option<Snapshot>, ReadError>)
      ensures SnapshotRead(tables, r)
    {
      var latest := Latest(tables.snapshots);
      if latest.None? {
        return Ok(None);
      }
      if latest.value.warnings.None? {
        return Err(BadWarnings);
      }
      var out := OrderBySource(RowsOf(tables.quotes, latest.value.id));
      r := Assembled(latest.value, DecodeQuotes(out));
    }

    /** The provider health as one read transaction sees it. */
    method ReadHealth() returns (r: Result<seq<ProviderHealth>, ReadError>)
      requires tables.health.Some?
      ensures HealthRead(tables.health.value, r)
    {
      var rows := tables.health.value;
      var sources := SortSources(rows.Keys);
      var health: seq<ProviderHealth> := [];
      var i := 0;
      while i < |sources|
        invariant i <= |sources| && |health| == i
        invariant forall k :: 0 <= k < i ==>
                    health[k].source == sources[k] && DecodeHealth(rows[sources[k]]) == Some(health[k].lastAttempt)
      {
        assert sources[i] in sources;
        var attempt := DecodeHealth(rows[sources[i]]);
        if attempt.None? {
          return Err(BadHealth);
        }
        health := health + [ProviderHealth(sources[i], attempt.value)];
        i := i + 1;
      }
      forall source | source in rows ensures exists h :: h in health && h.source == source {
        var k :| 0 <= k < |sources| && sources[k] == source;
        assert health[k] in health;
      }
      r := Ok(health);
    }
  }

  // ---- Ordered queries ---------------------------------------------------------------------

  /** Insertion into an ordered result. */
  method OrderBySource(rows: seq<QuoteRow>) returns (out: seq<QuoteRow>)
    ensures OrderedResult(rows, out)
  {
    out := [];
    ghost var perm: seq<nat> := [];
    var i := 0;
    while i < |rows|
      invariant i <= |rows| && |out| == i && Permutation(perm, i)
      invariant forall k :: 0 <= k < i ==> out[k] == rows[perm[k]]
      invariant forall j, k :: 0 <= j < k < i ==> !Before(out[k].source, out[j].source)
    {
      var at := 0;
      while at < i && !Before(rows[i].source, out[at].source)
        invariant at <= i
        invariant forall k :: 0 <= k < at ==> !Before(rows[i].source, out[k].source)
      {
        at := at + 1;
      }
      InsertedOrdered(out, rows[i], at);
      InsertedPermutation(perm, i, at);
      out := out[..at] + [rows[i]] + out[at..];
      perm := perm[..at] + [i] + perm[at..];
      i := i + 1;
    }
  }

  lemma {:induction false} InsertedPermutation(perm: seq<nat>, n: nat, at: nat)
    requires Permutation(perm, n) && at <= n
    ensures Permutation(perm[..at] + [n] + perm[at..], n + 1)
  {
    var longer := perm[..at] + [n] + perm[at..];
    forall k | 0 <= k < n + 1 ensures k in longer {
      if k < n {
        assert k in perm;
        var i :| 0 <= i < n && perm[i] == k;
        assert longer[if i < at then i else i + 1] == k;
      } else {
        assert longer[at] == n;
      }
    }
  }

  lemma {:induction false} InsertedOrdered(out: seq<QuoteRow>, row: QuoteRow, at: nat)
    requires at <= |out|
    requires forall j, k :: 0 <= j < k < |out| ==> !Before(out[k].source, out[j].source)
    requires forall k :: 0 <= k < at ==> !Before(row.source, out[k].source)
    requires at < |out| ==> Before(row.source, out[at].source)
    ensures var longer := out[..at] + [row] + out[at..];
            forall j, k :: 0 <= j < k < |longer| ==> !Before(longer[k].source, longer[j].source)
  {
    forall k | at <= k < |out| ensures !Before(out[k].source, row.source) {
      if Before(out[k].source, row.source) {
        BeforeTransitive(out[k].source, row.source, out[at].source);
        BeforeIrreflexive(out[k].source);
      }
    }
  }

  predicate StrictlyOrdered(sources: seq<string>) {
    forall i, j :: 0 <= i < j < |sources| ==> Before(sources[i], sources[j])
  }

  method SortSources(keys: set<string>) returns (sources: seq<string>)
    ensures StrictlyOrdered(sources)
    ensures forall s :: s in sources <==> s in keys
  {
    sources := [];
    var pending := keys;
    while pending != {}
      invariant pending <= keys && StrictlyOrdered(sources)
      invariant forall s :: s in sources <==> s in keys && s !in pending
      decreases pending
    {
      var key: string :| key in pending;
      var at := 0;
      while at < |sources| && Before(sources[at], key)
        invariant at <= |sources|
        invariant forall k :: 0 <= k < at ==> Before(sources[k], key)
      {
        at := at + 1;
      }
      InsertedStrictly(sources, key, at);
      sources := sources[..at] + [key] + sources[at..];
      pending := pending - {key};
    }
  }

  lemma {:induction false} InsertedStrictly(sources: seq<string>, key: string, at: nat)
    requires at <= |sources| && StrictlyOrdered(sources) && key !in sources
    requires forall k :: 0 <= k < at ==> Before(sources[k], key)
    requires at < |sources| ==> !Before(sources[at], key)
    ensures StrictlyOrdered(sources[..at] + [key] + sources[at..])
    ensures forall s :: s in sources[..at] + [key] + sources[at..] <==> s in sources || s == key
  {
    forall k | at <= k < |sources| ensures Before(key, sources[k]) {
      BeforeTotal(key, sources[at]);
      if at < k { BeforeTransitive(key, sources[at], sources[k]); }
    }
    assert sources == sources[..at] + sources[at..];
  }

  // ---- Health after a store -------------------------------------------------------------------

  /** `r` may be returned by reading the health rows. */
  ghost predicate HealthRead(rows: map<string, HealthRow>, r: Result<seq<ProviderHealth>, ReadError>) {
    match r
    case Ok(health) =>
      && StrictlyOrdered(seq(|health|, i requires 0 <= i < |health| => health[i].source))
      && (forall h :: h in health ==> h.source in rows && DecodeHealth(rows[h.source]) == Some(h.lastAttempt))
      && forall source :: source in rows ==> exists h :: h in health && h.source == source
    case Err(e) => e == BadHealth && exists source :: source in rows && DecodeHealth(rows[source]).None?
  }

  /** After a store each source of the batch reads back as its last record, and every other
      source reads back as before. */
  lemma {:induction false} HealthStoredAndKept(rows: map<string, HealthRow>, batch: seq<ProviderHealth>,
                                               before: seq<ProviderHealth>, after: seq<ProviderHealth>,
                                               h: ProviderHealth)
    requires forall x :: x in batch ==> Representable(x.lastAttempt)
    requires HealthRead(rows, Ok(before)) && HealthRead(Upserted(rows, batch), Ok(after))
    ensures h in after <==>
            if LastHealth(batch, h.source).Some? then h.lastAttempt == LastHealth(batch, h.source).value
            else h in before
  {
    UpsertMeaning(rows, batch, h.source);
    if LastHealth(batch, h.source).Some? {
      LastHealthIn(batch, h.source);
      HealthRoundTrip(LastHealth(batch, h.source).value);
    }
    ReadsBack(Upserted(rows, batch), after, h);
    ReadsBack(rows, before, h);
  }

  lemma {:induction false} ReadsBack(rows: map<string, HealthRow>, health: seq<ProviderHealth>,
                                     h: ProviderHealth)
    requires HealthRead(rows, Ok(health))
    ensures h in health <==> h.source in rows && DecodeHealth(rows[h.source]) == Some(h.lastAttempt)
  {
    if h.source in rows && DecodeHealth(rows[h.source]) == Some(h.lastAttempt) {
      var x :| x in health && x.source == h.source;
      assert x == h;
    }
  }

  lemma {:induction false} LastHealthIn(batch: seq<ProviderHealth>, source: string)
    requires LastHealth(batch, source).Some?
    ensures ProviderHealth(source, LastHealth(batch, source).value) in batch
    decreases |batch|
  {
    if batch[|batch| - 1].source != source { LastHealthIn(batch[..|batch| - 1], source); }
  }
}
