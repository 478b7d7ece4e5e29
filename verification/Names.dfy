/** The order in which providers are listed, by `ordered_sources` and by the SQL queries
    alike: configured providers first, then the other names in ascending order. */
module Names {
  import opened Providers

  /** Ascending order of strings, character by character. */
  predicate LexLess(a: string, b: string) {
    b != [] && (a == [] || a[0] < b[0] || (a[0] == b[0] && LexLess(a[1..], b[1..])))
  }

  /** Strings agree up to `k`, where `a` ends or has the smaller character. */
  predicate SmallerAt(a: string, b: string, k: nat) {
    && k <= |a| && k < |b| && a[..k] == b[..k]
    && (k == |a| || a[k] < b[k])
  }

  /** The order is that of dictionaries: the first difference decides, a prefix comes first. */
  lemma {:induction false} LexMeaning(a: string, b: string)
    ensures LexLess(a, b) <==> exists k: nat :: SmallerAt(a, b, k)
  {
    if LexLess(a, b) {
      if a == [] || a[0] < b[0] {
        assert SmallerAt(a, b, 0);
      } else {
        LexMeaning(a[1..], b[1..]);
        var k: nat :| SmallerAt(a[1..], b[1..], k);
        assert a == [a[0]] + a[1..] && b == [b[0]] + b[1..];
        assert a[..k + 1] == [a[0]] + a[1..][..k] && b[..k + 1] == [b[0]] + b[1..][..k];
        assert SmallerAt(a, b, k + 1);
      }
    }
    if k: nat :| SmallerAt(a, b, k) {
      if k > 0 {
        assert a[0] == a[..k][0] && b[0] == b[..k][0];
        assert a[1..][..k - 1] == a[..k][1..] && b[1..][..k - 1] == b[..k][1..];
        assert SmallerAt(a[1..], b[1..], k - 1);
        LexMeaning(a[1..], b[1..]);
      }
    }
  }

  /** Configured providers are listed in their order and before all others, and the others
      as in a dictionary. */
  lemma {:induction false} BeforeMeaning(a: string, b: string)
    ensures forall p, q :: Before(Name(p), Name(q)) <==> Index(p) < Index(q)
    ensures Configured(a) && !Configured(b) ==> Before(a, b) && !Before(b, a)
    ensures !Configured(a) && !Configured(b) ==> (Before(a, b) <==> LexLess(a, b))
  {
    forall p ensures Rank(Name(p)) == Index(p) { RankOfConfigured(p); }
    forall p, q ensures Before(Name(p), Name(q)) <==> Index(p) < Index(q) {
      if Index(p) == Index(q) {
        IndexInjective(p, q);
        LexIrreflexive(Name(p));
      }
    }
    forall s | Rank(s) < COUNT ensures Configured(s) { assert Name(ALL[Rank(s)]) == s; }
    if Configured(a) { var p: Provider :| Name(p) == a; }
  }

  lemma {:induction false} LexIrreflexive(a: string)
    ensures !LexLess(a, a)
  {
    if a != [] { LexIrreflexive(a[1..]); }
  }

  lemma {:induction false} LexTransitive(a: string, b: string, c: string)
    requires LexLess(a, b) && LexLess(b, c)
    ensures LexLess(a, c)
  {
    if a != [] && a[0] == b[0] == c[0] { LexTransitive(a[1..], b[1..], c[1..]); }
  }

  lemma {:induction false} LexTotal(a: string, b: string)
    ensures a == b || LexLess(a, b) || LexLess(b, a)
  {
    if a != [] && b != [] && a[0] == b[0] {
      LexTotal(a[1..], b[1..]);
      assert a == [a[0]] + a[1..] && b == [b[0]] + b[1..];
    }
  }

  function Rank(source: string): nat {
    if source == Name(CoinGecko) then 0
    else if source == Name(Coinbase) then 1
    else if source == Name(Kraken) then 2
    else if source == Name(Gemini) then 3
    else 99
  }

  lemma {:induction false} RankOfConfigured(p: Provider)
    ensures Rank(Name(p)) == Index(p)
  {
    if Rank(Name(p)) < COUNT { NameInjective(p, ALL[Rank(Name(p))]); }
  }

  predicate Before(a: string, b: string) {
    Rank(a) < Rank(b) || (Rank(a) == Rank(b) && LexLess(a, b))
  }

  lemma {:induction false} BeforeIrreflexive(a: string)
    ensures !Before(a, a)
  {
    LexIrreflexive(a);
  }

  lemma {:induction false} BeforeTransitive(a: string, b: string, c: string)
    requires Before(a, b) && Before(b, c)
    ensures Before(a, c)
  {
    if Rank(a) == Rank(b) == Rank(c) { LexTransitive(a, b, c); }
  }

  lemma {:induction false} BeforeTotal(a: string, b: string)
    ensures a == b || Before(a, b) || Before(b, a)
  {
    LexTotal(a, b);
  }
}
