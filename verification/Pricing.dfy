/** Quotes and the merged snapshot (src/pricing.rs). */
module Pricing {
  import opened Common
  import opened Providers
  import opened Names

  /** A stored quote. Prices that are not positive stand for every invalid price,
      including values that are not finite. */
  datatype Quote = Quote(source: string, price: real, time: Option<int>, kind: QuoteKind)

  predicate ValidQuote(q: Quote) {
    q.price > 0.0
  }

  predicate AllValid(quotes: seq<Quote>) {
    forall q :: q in quotes ==> ValidQuote(q)
  }

  // ---- What a merge means --------------------------------------------------

  /** The last quote of `source`. */
  function LastOf(quotes: seq<Quote>, source: string): (r: Option<Quote>)
    ensures r.Some? ==> r.value in quotes && r.value.source == source
    ensures r.None? ==> forall q :: q in quotes ==> q.source != source
  {
    if quotes == [] then None
    else if quotes[|quotes| - 1].source == source then Some(quotes[|quotes| - 1])
    else LastOf(quotes[..|quotes| - 1], source)
  }

  function Valids(quotes: seq<Quote>): (r: seq<Quote>)
    ensures AllValid(r)
  {
    if quotes == [] then []
    else
      var rest := Valids(quotes[..|quotes| - 1]);
      if ValidQuote(quotes[|quotes| - 1]) then rest + [quotes[|quotes| - 1]] else rest
  }

  /** The quote a merge keeps for `source`: the newest fetched one, else the last valid
      one of the previous snapshot. */
  function Kept(previous: seq<Quote>, fetched: seq<Quote>, source: string): Option<Quote> {
    match LastOf(fetched, source)
    case Some(q) => Some(q)
    case None => LastOf(Valids(previous), source)
  }

  predicate Ordered(s: seq<Quote>) {
    forall i, j :: 0 <= i < j < |s| ==> Before(s[i].source, s[j].source)
  }

  /** `merged` lists, in order and without duplicates, exactly what a merge keeps. */
  ghost predicate Merges(previous: seq<Quote>, fetched: seq<Quote>, merged: seq<Quote>) {
    && Ordered(merged)
    && forall source :: LastOf(merged, source) == Kept(previous, fetched, source)
  }

  lemma {:induction false} LastOfOrdered(s: seq<Quote>, q: Quote)
    requires Ordered(s)
    ensures q in s <==> LastOf(s, q.source) == Some(q)
    decreases |s|
  {
    if s != [] {
      var before, last := s[..|s| - 1], s[|s| - 1];
      LastOfOrdered(before, q);
      assert s == before + [last];
      if last.source == q.source && q in before {
        var i :| 0 <= i < |before| && before[i] == q;
        assert Before(s[i].source, s[|s| - 1].source);
        BeforeIrreflexive(q.source);
      }
    }
  }

  /** Ordered lists with the same members are equal. */
  lemma {:induction false} OrderedUnique(s: seq<Quote>, t: seq<Quote>)
    requires Ordered(s) && Ordered(t)
    requires forall q :: q in s <==> q in t
    ensures s == t
    decreases |s|
  {
    SameEmptiness(s, t);
    if s != [] {
      HeadsAgree(s, t);
      var s', t' := s[1..], t[1..];
      forall q ensures q in s' <==> q in t' {
        InTail(s, q);
        InTail(t, q);
      }
      OrderedUnique(s', t');
      assert s == [s[0]] + s' && t == [t[0]] + t';
    }
  }

  lemma {:induction false} SameEmptiness(s: seq<Quote>, t: seq<Quote>)
    requires forall q :: q in s <==> q in t
    ensures s == [] <==> t == []
  {
    if s != [] { assert s[0] in s; }
    if t != [] { assert t[0] in t; }
  }

  lemma {:induction false} HeadsAgree(s: seq<Quote>, t: seq<Quote>)
    requires Ordered(s) && Ordered(t) && s != [] && t != []
    requires forall q :: q in s <==> q in t
    ensures s[0] == t[0]
  {
    assert s[0] in s && t[0] in t;
    if s[0] != t[0] {
      var i :| 0 <= i < |t| && t[i] == s[0];
      var j :| 0 <= j < |s| && s[j] == t[0];
      assert Before(t[0].source, t[i].source) && Before(s[0].source, s[j].source);
      BeforeTransitive(s[0].source, t[0].source, s[0].source);
      BeforeIrreflexive(s[0].source);
    }
  }

  lemma {:induction false} InTail(s: seq<Quote>, q: Quote)
    requires Ordered(s) && s != []
    ensures q in s[1..] <==> q in s && q != s[0]
  {
    if q in s[1..] {
      var i :| 0 <= i < |s| - 1 && s[1..][i] == q;
      assert Before(s[0].source, s[i + 1].source);
      BeforeIrreflexive(q.source);
    }
    if q in s && q != s[0] {
      var i :| 0 <= i < |s| && s[i] == q;
      assert s[1..][i - 1] == q;
    }
  }

  /** A merge has one result. */
  lemma {:induction false} MergeUnique(previous: seq<Quote>, fetched: seq<Quote>, s: seq<Quote>,
                                       t: seq<Quote>)
    requires Merges(previous, fetched, s) && Merges(previous, fetched, t)
    ensures s == t
  {
    forall q ensures q in s <==> q in t {
      LastOfOrdered(s, q);
      LastOfOrdered(t, q);
    }
    OrderedUnique(s, t);
  }

  // ---- The merge itself --------------------------------------------------------

  /** Entries are stored under their own source. */
  predicate Keyed(m: map<string, Quote>) {
    forall k :: k in m ==> m[k].source == k
  }

  /** `s` lists the entries of `m` in order. */
  ghost predicate Lists(m: map<string, Quote>, s: seq<Quote>) {
    && Ordered(s)
    && (forall q :: q in s ==> q.source in m && m[q.source] == q)
    && (forall k :: k in m ==> m[k] in s)
  }

  method MergeSnapshotSources(previous: seq<Quote>, fetched: seq<Quote>) returns (merged: seq<Quote>)
    ensures Merges(previous, fetched, merged)
  {
    var prices: map<string, Quote> := map[];
    var i := 0;
    while i < |previous|
      invariant i <= |previous| && Keyed(prices)
      invariant forall k :: Entry(prices, k) == LastOf(Valids(previous[..i]), k)
    {
      ghost var before := prices;
      if previous[i].price > 0.0 {
        prices := prices[previous[i].source := previous[i]];
      }
      forall k ensures Entry(prices, k) == LastOf(Valids(previous[..i + 1]), k) {
        assert Entry(before, k) == LastOf(Valids(previous[..i]), k);
        ValidsStep(previous, i, k);
      }
      i := i + 1;
    }
    assert previous[..i] == previous;
    i := 0;
    while i < |fetched|
      invariant i <= |fetched| && Keyed(prices)
      invariant forall k :: Entry(prices, k) == Kept(previous, fetched[..i], k)
    {
      ghost var before := prices;
      prices := prices[fetched[i].source := fetched[i]];
      forall k ensures Entry(prices, k) == Kept(previous, fetched[..i + 1], k) {
        assert Entry(before, k) == Kept(previous, fetched[..i], k);
        LastOfStep(fetched, i, k);
      }
      i := i + 1;
    }
    assert fetched[..i] == fetched;
    merged := OrderedSources(prices);
    forall k ensures LastOf(merged, k) == Kept(previous, fetched, k) {
      ListsEntry(prices, merged, k);
    }
  }

  lemma {:induction false} LastOfPushed(quotes: seq<Quote>, q: Quote, k: string)
    ensures LastOf(quotes + [q], k) == if q.source == k then Some(q) else LastOf(quotes, k)
  {
    assert (quotes + [q])[..|quotes + [q]| - 1] == quotes;
  }

  lemma {:induction false} LastOfStep(quotes: seq<Quote>, i: nat, k: string)
    requires i < |quotes|
    ensures LastOf(quotes[..i + 1], k) == if quotes[i].source == k then Some(quotes[i]) else LastOf(quotes[..i], k)
  {
    LastOfPushed(quotes[..i], quotes[i], k);
    assert quotes[..i + 1] == quotes[..i] + [quotes[i]];
  }

  lemma {:induction false} ValidsStep(quotes: seq<Quote>, i: nat, k: string)
    requires i < |quotes|
    ensures LastOf(Valids(quotes[..i + 1]), k)
            == if ValidQuote(quotes[i]) && quotes[i].source == k then Some(quotes[i])
               else LastOf(Valids(quotes[..i]), k)
  {
    var upTo := quotes[..i + 1];
    assert upTo[..|upTo| - 1] == quotes[..i];
    LastOfPushed(Valids(quotes[..i]), quotes[i], k);
  }

  function Entry(m: map<string, Quote>, k: string): Option<Quote> {
    if k in m then Some(m[k]) else None
  }

  lemma {:induction false} ListsEntry(m: map<string, Quote>, s: seq<Quote>, k: string)
    requires Keyed(m) && Lists(m, s)
    ensures LastOf(s, k) == Entry(m, k)
  {
    if k in m { LastOfOrdered(s, m[k]); }
  }

  /** Configured providers first, then the remaining entries by name. */
  method OrderedSources(prices: map<string, Quote>) returns (sources: seq<Quote>)
    requires Keyed(prices)
    ensures Lists(prices, sources)
  {
    var rest := prices;
    sources := [];
    var i := 0;
    while i < COUNT
      invariant i <= COUNT && Keyed(rest)
      invariant forall k :: k in rest <==> k in prices && Rank(k) >= i
      invariant forall k :: k in rest ==> rest[k] == prices[k]
      invariant Ordered(sources)
      invariant forall q :: q in sources <==> Entry(prices, q.source) == Some(q) && Rank(q.source) < i
    {
      var name := Name(ALL[i]);
      RankOfConfigured(ALL[i]);
      RankIdentifies(i);
      if name in rest {
        assert forall j :: 0 <= j < |sources| ==> sources[j] in sources;
        sources := sources + [rest[name]];
      }
      rest := rest - {name};
      i := i + 1;
    }
    var extras := SortedByName(rest);
    RankIdentifies(0);
    JoinLists(prices, sources, rest, extras);
    sources := sources + extras;
  }

  lemma {:induction false} JoinLists(prices: map<string, Quote>, sources: seq<Quote>,
                                     rest: map<string, Quote>, extras: seq<Quote>)
    requires Keyed(prices) && Ordered(sources) && Lists(rest, extras)
    requires forall k :: k in rest <==> k in prices && Rank(k) >= COUNT
    requires forall k :: k in rest ==> rest[k] == prices[k]
    requires forall q :: q in sources <==> Entry(prices, q.source) == Some(q) && Rank(q.source) < COUNT
    ensures Lists(prices, sources + extras)
  {
    var all := sources + extras;
    forall i, j | 0 <= i < j < |all| ensures Before(all[i].source, all[j].source) {
      if i < |sources| <= j {
        assert sources[i] in sources && extras[j - |sources|] in extras;
      }
    }
    forall k | k in prices ensures prices[k] in all {
      if Rank(k) < COUNT { assert prices[k] in sources; } else { assert rest[k] in extras; }
    }
  }

  /** The values of `rest`, collected and sorted by name. */
  method SortedByName(rest: map<string, Quote>) returns (extras: seq<Quote>)
    requires Keyed(rest)
    ensures Lists(rest, extras)
  {
    extras := [];
    var pending := rest.Keys;
    while pending != {}
      invariant pending <= rest.Keys
      invariant Lists(rest - pending, extras)
      decreases |pending|
    {
      var name: string :| name in pending;
      ListInsert(rest - pending, extras, rest[name]);
      assert (rest - pending)[name := rest[name]] == rest - (pending - {name});
      extras := Insert(extras, rest[name]);
      pending := pending - {name};
    }
    assert rest - pending == rest;
  }

  lemma {:induction false} ListInsert(m: map<string, Quote>, s: seq<Quote>, q: Quote)
    requires Lists(m, s) && q.source !in m
    ensures Lists(m[q.source := q], Insert(s, q))
  {
    InsertOrdered(s, q);
  }

  lemma {:induction false} RankIdentifies(i: nat)
    requires i < COUNT
    ensures forall k :: Rank(k) == i <==> k == Name(ALL[i])
    ensures forall k :: Rank(k) < COUNT || Rank(k) == 99
  {
    RankOfConfigured(ALL[i]);
  }

  /** Sorted insertion, standing for the library sort by name. */
  function Insert(s: seq<Quote>, q: Quote): seq<Quote> {
    if s == [] || Before(q.source, s[0].source) then [q] + s else [s[0]] + Insert(s[1..], q)
  }

  lemma {:induction false} InsertOrdered(s: seq<Quote>, q: Quote)
    requires Ordered(s) && forall x :: x in s ==> x.source != q.source
    ensures Ordered(Insert(s, q))
    ensures forall x :: x in Insert(s, q) <==> x in s || x == q
    decreases |s|
  {
    if s == [] {
    } else if Before(q.source, s[0].source) {
      forall j | 0 <= j < |s| ensures Before(q.source, s[j].source) {
        if j > 0 { BeforeTransitive(q.source, s[0].source, s[j].source); }
      }
    } else {
      BeforeTotal(q.source, s[0].source);
      assert s[0] in s;
      InsertOrdered(s[1..], q);
      var rest := Insert(s[1..], q);
      forall j | 0 <= j < |rest| ensures Before(s[0].source, rest[j].source) {
        assert rest[j] in rest;
        if rest[j] in s[1..] {
          var i :| 0 <= i < |s| - 1 && s[1..][i] == rest[j];
          assert s[i + 1] == rest[j];
        }
      }
      assert s == [s[0]] + s[1..];
    }
  }

  // ---- The merge as a function ----------------------------------------------------

  /** The list of a map's entries. */
  ghost function Listing(m: map<string, Quote>): (s: seq<Quote>)
    requires Keyed(m)
    ensures Lists(m, s)
    decreases |m.Keys|
  {
    if m == map[] then []
    else
      var k :| k in m;
      var rest := Listing(m - {k});
      ListInsert(m - {k}, rest, m[k]);
      assert (m - {k})[k := m[k]] == m;
      Insert(rest, m[k])
  }

  ghost function KeptEntries(previous: seq<Quote>, fetched: seq<Quote>): (m: map<string, Quote>)
    ensures Keyed(m)
    ensures forall k :: Entry(m, k) == Kept(previous, fetched, k)
  {
    var sources := (set q | q in previous :: q.source) + (set q | q in fetched :: q.source);
    var m := map k | k in sources && Kept(previous, fetched, k).Some? :: Kept(previous, fetched, k).value;
    assert forall k :: Entry(m, k) == Kept(previous, fetched, k) by {
      forall k | Kept(previous, fetched, k).Some? ensures k in sources {
        ValidsSubset(previous);
      }
    }
    m
  }

  lemma {:induction false} ValidsSubset(quotes: seq<Quote>)
    ensures forall q :: q in Valids(quotes) <==> q in quotes && ValidQuote(q)
    decreases |quotes|
  {
    if quotes != [] {
      ValidsSubset(quotes[..|quotes| - 1]);
      assert quotes == quotes[..|quotes| - 1] + [quotes[|quotes| - 1]];
    }
  }

  ghost function Merge(previous: seq<Quote>, fetched: seq<Quote>): (merged: seq<Quote>)
    ensures Merges(previous, fetched, merged)
  {
    var m := KeptEntries(previous, fetched);
    var merged := Listing(m);
    assert forall k :: LastOf(merged, k) == Kept(previous, fetched, k) by {
      forall k ensures LastOf(merged, k) == Kept(previous, fetched, k) { ListsEntry(m, merged, k); }
    }
    merged
  }

  lemma {:induction false} LastOfConcat(a: seq<Quote>, b: seq<Quote>, source: string)
    ensures LastOf(a + b, source) == if LastOf(b, source).Some? then LastOf(b, source) else LastOf(a, source)
    decreases |b|
  {
    if b == [] {
      assert a + b == a;
    } else {
      assert (a + b)[..|a + b| - 1] == a + b[..|b| - 1];
      LastOfConcat(a, b[..|b| - 1], source);
    }
  }

  /** A merged list keeps nothing invalid when the fetched quotes are valid. */
  lemma {:induction false} MergedValid(previous: seq<Quote>, fetched: seq<Quote>)
    requires AllValid(fetched)
    ensures AllValid(Merge(previous, fetched))
  {
    var merged := Merge(previous, fetched);
    forall q | q in merged ensures ValidQuote(q) {
      LastOfOrdered(merged, q);
      assert Kept(previous, fetched, q.source) == Some(q);
    }
  }

  lemma {:induction false} ValidsOfValid(quotes: seq<Quote>)
    requires AllValid(quotes)
    ensures Valids(quotes) == quotes
    decreases |quotes|
  {
    if quotes != [] {
      assert quotes[|quotes| - 1] in quotes;
      ValidsOfValid(quotes[..|quotes| - 1]);
      assert quotes == quotes[..|quotes| - 1] + [quotes[|quotes| - 1]];
    }
  }

  /** Merging batch a and then batch b is merging their concatenation. */
  lemma {:induction false} MergeConcat(previous: seq<Quote>, a: seq<Quote>, b: seq<Quote>)
    requires AllValid(a)
    ensures Merge(Merge(previous, a), b) == Merge(previous, a + b)
  {
    var once := Merge(previous, a);
    MergedValid(previous, a);
    ValidsOfValid(once);
    forall source ensures Kept(once, b, source) == Kept(previous, a + b, source) {
      LastOfConcat(a, b, source);
    }
    MergeUnique(previous, a + b, Merge(once, b), Merge(previous, a + b));
  }

  // ---- The stored record -------------------------------------------------------------

  /** The snapshot record kept in storage. */
  datatype Snapshot = Snapshot(
    fetchedAt: int,
    sources: seq<Quote>,
    averagePrice: Option<real>,
    spread: Option<real>,
    warnings: seq<string>,
    refreshedSource: Option<string>)
}
