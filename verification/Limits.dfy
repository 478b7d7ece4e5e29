/** The request-rate token bucket (src/limits.rs). */
module Limits {
  import opened Common

  datatype Bucket = Bucket(tokens: real, updated: Instant)

  function MinReal(a: real, b: real): real {
    if a < b then a else b
  }

  /** Tokens gained in `seconds`: the product with the rate, as a repeated sum. */
  function Gain(seconds: real, rate: nat): real {
    if rate == 0 then 0.0 else Gain(seconds, rate - 1) + seconds
  }

  lemma {:induction false} GainIsProduct(seconds: real, rate: nat)
    ensures Gain(seconds, rate) == seconds * rate as real
  {
    if rate > 0 { GainIsProduct(seconds, rate - 1); }
  }

  lemma {:induction false} GainAdds(a: real, b: real, rate: nat)
    ensures Gain(a + b, rate) == Gain(a, rate) + Gain(b, rate)
  {
    if rate > 0 { GainAdds(a, b, rate - 1); }
  }

  lemma {:induction false} GainNonNegative(seconds: real, rate: nat)
    requires seconds >= 0.0
    ensures Gain(seconds, rate) >= 0.0
  {
    if rate > 0 { GainNonNegative(seconds, rate - 1); }
  }

  function Refilled(b: Bucket, now: Instant, rate: nat): real {
    MinReal(b.tokens + Gain(SaturatingSince(now, b.updated), rate), rate as real)
  }

  /** One call: the bucket afterwards and whether the request is let through. */
  function AfterAllow(b: Bucket, now: Instant, rate: nat): (Bucket, bool) {
    var tokens := Refilled(b, now, rate);
    if tokens < 1.0 then (Bucket(tokens, now), false) else (Bucket(tokens - 1.0, now), true)
  }

  /** A gate's bucket. The clock is read before the lock is taken, so calls may present
      instants in any order and `updated` may move back. */
  class Gate {
    var tokens: real
    var updated: Instant
    const rate: nat

    ghost function View(): Bucket
      reads this
    {
      Bucket(tokens, updated)
    }

    constructor (rate: nat, now: Instant)
      ensures this.rate == rate && View() == Bucket(rate as real, now)
    {
      tokens, updated, this.rate := rate as real, now, rate;
    }

    method Allow(now: Instant) returns (allowed: bool)
      modifies this
      ensures (View(), allowed) == AfterAllow(old(View()), now, rate)
    {
      var elapsed := SaturatingSince(now, updated);
      var gained := elapsed * rate as real;
      GainIsProduct(elapsed, rate);
      tokens := MinReal(tokens + gained, rate as real);
      updated := now;
      if tokens < 1.0 {
        return false;
      }
      tokens := tokens - 1.0;
      allowed := true;
    }
  }

  // ---- Runs --------------------------------------------------------------------

  /** The bucket created at `start` after the first j calls, taken in the order in which
      they got the lock. */
  function AfterCalls(start: Instant, times: seq<Instant>, rate: nat, j: nat): Bucket
    requires j <= |times|
  {
    if j == 0 then Bucket(rate as real, start)
    else AfterAllow(AfterCalls(start, times, rate, j - 1), times[j - 1], rate).0
  }

  /** Whether call k is let through. */
  predicate Allowed(start: Instant, times: seq<Instant>, rate: nat, k: nat)
    requires k < |times|
  {
    AfterAllow(AfterCalls(start, times, rate, k), times[k], rate).1
  }

  /** How many of the calls i..j-1 are let through. */
  function AllowedCount(start: Instant, times: seq<Instant>, rate: nat, i: nat, j: nat): nat
    requires i <= j <= |times|
    decreases j - i
  {
    if i == j then 0
    else AllowedCount(start, times, rate, i, j - 1) + if Allowed(start, times, rate, j - 1) then 1 else 0
  }

  /** The instant the bucket holds before call k. */
  function ClockBefore(start: Instant, times: seq<Instant>, k: nat): Instant
    requires k <= |times|
  {
    if k == 0 then start else times[k - 1]
  }

  /** Forward movement of the clock at call k; a backward step counts nothing. */
  function ForwardStep(start: Instant, times: seq<Instant>, k: nat): (d: real)
    requires k < |times|
    ensures d >= 0.0
  {
    SaturatingSince(times[k], ClockBefore(start, times, k))
  }

  function Forward(start: Instant, times: seq<Instant>, i: nat, j: nat): (d: real)
    requires i <= j <= |times|
    ensures d >= 0.0
    decreases j - i
  {
    if i == j then 0.0 else Forward(start, times, i, j - 1) + ForwardStep(start, times, j - 1)
  }

  // ---- The account behind a run ------------------------------------------------------
  // The tokens that flow in before each call determine everything else.

  function Spent(t: real): real {
    if t < 1.0 then t else t - 1.0
  }

  /** Tokens after j calls of an account that starts full and never exceeds `cap`. */
  function Tokens(cap: real, inflow: seq<real>, j: nat): real
    requires j <= |inflow|
  {
    if j == 0 then cap else Spent(MinReal(Tokens(cap, inflow, j - 1) + inflow[j - 1], cap))
  }

  predicate Accepts(cap: real, inflow: seq<real>, k: nat)
    requires k < |inflow|
  {
    MinReal(Tokens(cap, inflow, k) + inflow[k], cap) >= 1.0
  }

  function Acceptances(cap: real, inflow: seq<real>, i: nat, j: nat): nat
    requires i <= j <= |inflow|
    decreases j - i
  {
    if i == j then 0 else Acceptances(cap, inflow, i, j - 1) + if Accepts(cap, inflow, j - 1) then 1 else 0
  }

  function Total(inflow: seq<real>, i: nat, j: nat): real
    requires i <= j <= |inflow|
    decreases j - i
  {
    if i == j then 0.0 else Total(inflow, i, j - 1) + inflow[j - 1]
  }

  /** Without the cap: the account had it been full at split point s, that is, at the start
      or right after the refill that precedes call s - 1, which is then charged as well. */
  function Uncapped(cap: real, inflow: seq<real>, s: nat, j: nat): real
    requires s <= j <= |inflow|
  {
    cap + Total(inflow, s, j) - Acceptances(cap, inflow, if s == 0 then 0 else s - 1, j) as real
  }

  lemma {:induction false} BelowSplit(cap: real, inflow: seq<real>, s: nat, j: nat)
    requires s <= j <= |inflow|
    ensures Tokens(cap, inflow, j) <= Uncapped(cap, inflow, s, j)
    decreases j
  {
    if j > 0 {
      if s < j {
        BelowSplit(cap, inflow, s, j - 1);
      } else {
        assert Acceptances(cap, inflow, j - 1, j - 1) == 0;
      }
    }
  }

  lemma {:induction false} AtSplit(cap: real, inflow: seq<real>, j: nat) returns (s: nat)
    requires j <= |inflow|
    ensures s <= j && Tokens(cap, inflow, j) == Uncapped(cap, inflow, s, j)
    decreases j
  {
    if j == 0 {
      s := 0;
    } else if Tokens(cap, inflow, j - 1) + inflow[j - 1] < cap {
      s := AtSplit(cap, inflow, j - 1);
    } else {
      s := j;
      assert Acceptances(cap, inflow, j - 1, j - 1) == 0;
    }
  }

  lemma {:induction false} TokensInRange(cap: real, inflow: seq<real>, j: nat)
    requires cap >= 0.0 && j <= |inflow|
    requires forall k :: 0 <= k < |inflow| ==> inflow[k] >= 0.0
    ensures 0.0 <= Tokens(cap, inflow, j) <= cap
  {
    if j > 0 { TokensInRange(cap, inflow, j - 1); }
  }

  /** Tokens that flow in before each call of a run. */
  function Inflow(start: Instant, times: seq<Instant>, rate: nat): (inflow: seq<real>)
    ensures |inflow| == |times|
  {
    seq(|times|, k requires 0 <= k < |times| => Gain(ForwardStep(start, times, k), rate))
  }

  lemma {:induction false} InflowNonNegative(start: Instant, times: seq<Instant>, rate: nat, k: nat)
    requires k < |times|
    ensures Inflow(start, times, rate)[k] >= 0.0
  {
    GainNonNegative(ForwardStep(start, times, k), rate);
  }

  /** The bucket of a run is the account of its inflow. */
  lemma {:induction false} BucketIsAccount(start: Instant, times: seq<Instant>, rate: nat, j: nat)
    requires j <= |times|
    ensures AfterCalls(start, times, rate, j)
            == Bucket(Tokens(rate as real, Inflow(start, times, rate), j), ClockBefore(start, times, j))
  {
    if j > 0 {
      BucketIsAccount(start, times, rate, j - 1);
    }
  }

  lemma {:induction false} CountsAgree(start: Instant, times: seq<Instant>, rate: nat, i: nat, j: nat)
    requires i <= j <= |times|
    ensures AllowedCount(start, times, rate, i, j) == Acceptances(rate as real, Inflow(start, times, rate), i, j)
    decreases j
  {
    if i < j {
      CountsAgree(start, times, rate, i, j - 1);
      AllowedIsAccepted(start, times, rate, j - 1);
    }
  }

  lemma {:induction false} AllowedIsAccepted(start: Instant, times: seq<Instant>, rate: nat, k: nat)
    requires k < |times|
    ensures Allowed(start, times, rate, k) == Accepts(rate as real, Inflow(start, times, rate), k)
  {
    BucketIsAccount(start, times, rate, k);
  }

  lemma {:induction false} TotalIsForward(start: Instant, times: seq<Instant>, rate: nat, i: nat, j: nat)
    requires i <= j <= |times|
    ensures Total(Inflow(start, times, rate), i, j) == Gain(Forward(start, times, i, j), rate)
    decreases j
  {
    if i < j {
      TotalIsForward(start, times, rate, i, j - 1);
      GainAdds(Forward(start, times, i, j - 1), ForwardStep(start, times, j - 1), rate);
    } else {
      GainAdds(0.0, 0.0, rate);
    }
  }

  // ---- What callers see ------------------------------------------------------------------

  /** The un-lazy formula for split point s: full then, refilled by every forward clock
      step since, and charged for every request let through since. */
  function Ledger(start: Instant, times: seq<Instant>, rate: nat, s: nat, j: nat): real
    requires s <= j <= |times|
  {
    rate as real + Gain(Forward(start, times, s, j), rate)
    - AllowedCount(start, times, rate, if s == 0 then 0 else s - 1, j) as real
  }

  lemma {:induction false} LedgerIsUncapped(start: Instant, times: seq<Instant>, rate: nat, s: nat, j: nat)
    requires s <= j <= |times|
    ensures Ledger(start, times, rate, s, j) == Uncapped(rate as real, Inflow(start, times, rate), s, j)
  {
    TotalIsForward(start, times, rate, s, j);
    CountsAgree(start, times, rate, if s == 0 then 0 else s - 1, j);
  }

  /** The min-plus form: the token count is the least of the ledgers. */
  lemma {:induction false} TokensAreMinimum(start: Instant, times: seq<Instant>, rate: nat, tokens: real)
    ensures AfterCalls(start, times, rate, |times|).tokens == tokens
            <==> (forall s :: 0 <= s <= |times| ==> tokens <= Ledger(start, times, rate, s, |times|))
                 && exists s :: 0 <= s <= |times| && tokens == Ledger(start, times, rate, s, |times|)
  {
    var inflow := Inflow(start, times, rate);
    BucketIsAccount(start, times, rate, |times|);
    forall s | 0 <= s <= |times|
      ensures AfterCalls(start, times, rate, |times|).tokens <= Ledger(start, times, rate, s, |times|)
    {
      BelowSplit(rate as real, inflow, s, |times|);
      LedgerIsUncapped(start, times, rate, s, |times|);
    }
    var s := AtSplit(rate as real, inflow, |times|);
    LedgerIsUncapped(start, times, rate, s, |times|);
  }

  /** For any order of clock readings, the calls i..j let through at most `rate` plus
      `rate` times the forward clock movement after call i. */
  lemma {:induction false} AnyOrderBound(start: Instant, times: seq<Instant>, rate: nat, i: nat, j: nat)
    requires i <= j < |times|
    ensures AllowedCount(start, times, rate, i, j + 1) as real
            <= rate as real + Gain(Forward(start, times, i + 1, j + 1), rate)
  {
    var inflow := Inflow(start, times, rate);
    BelowSplit(rate as real, inflow, i + 1, j + 1);
    LedgerIsUncapped(start, times, rate, i + 1, j + 1);
    forall k | 0 <= k < |inflow| ensures inflow[k] >= 0.0 { InflowNonNegative(start, times, rate, k); }
    TokensInRange(rate as real, inflow, j + 1);
  }

  lemma {:induction false} ForwardWhenMonotone(start: Instant, times: seq<Instant>, i: nat, j: nat)
    requires i <= j < |times|
    requires forall a, b :: i <= a < b <= j ==> times[a] <= times[b]
    ensures Forward(start, times, i + 1, j + 1) == times[j] - times[i]
    decreases j
  {
    if i < j { ForwardWhenMonotone(start, times, i, j - 1); }
  }

  /** When the clock readings of calls i..j are nondecreasing, these calls let through at most
      rate + rate * (times[j] - times[i]). */
  lemma {:induction false} MonotoneBound(start: Instant, times: seq<Instant>, rate: nat, i: nat, j: nat)
    requires i <= j < |times|
    requires forall a, b :: i <= a < b <= j ==> times[a] <= times[b]
    ensures AllowedCount(start, times, rate, i, j + 1) as real
            <= rate as real + Gain(times[j] - times[i], rate)
    ensures Gain(times[j] - times[i], rate) == (times[j] - times[i]) * rate as real
  {
    assert Gain(times[j] - times[i], rate) == (times[j] - times[i]) * rate as real by {
      GainIsProduct(times[j] - times[i], rate);
    }
    AnyOrderBound(start, times, rate, i, j);
    ForwardWhenMonotone(start, times, i, j);
  }

  /** The room call j finds when everything since split point s is charged. */
  function Room(start: Instant, times: seq<Instant>, rate: nat, s: nat, j: nat): real
    requires s <= j < |times|
  {
    Ledger(start, times, rate, s, j) + Gain(ForwardStep(start, times, j), rate)
  }

  /** Nothing is refused needlessly: a call is let through exactly when it finds room in
      every ledger, that is, when no window ending with it would exceed its bound. */
  lemma {:induction false} AllowedExactly(start: Instant, times: seq<Instant>, rate: nat, j: nat)
    requires j < |times| && rate >= 1
    ensures Allowed(start, times, rate, j) <==> forall s :: 0 <= s <= j ==> Room(start, times, rate, s, j) >= 1.0
  {
    var inflow := Inflow(start, times, rate);
    AllowedIsAccepted(start, times, rate, j);
    forall s | 0 <= s <= j ensures Tokens(rate as real, inflow, j) + inflow[j] <= Room(start, times, rate, s, j) {
      BelowSplit(rate as real, inflow, s, j);
      LedgerIsUncapped(start, times, rate, s, j);
    }
    var s := AtSplit(rate as real, inflow, j);
    LedgerIsUncapped(start, times, rate, s, j);
    assert Room(start, times, rate, s, j) == Tokens(rate as real, inflow, j) + inflow[j];
  }

  // ---- Exactly when the readings bound a window ------------------------------------------

  predicate Nondecreasing(w: seq<Instant>) {
    forall a, b :: 0 <= a < b < |w| ==> w[a] <= w[b]
  }

  /** The calls that read w[i..j], made after any others, pass at most as often as the
      difference of the last and the first reading allows. */
  predicate WindowBounded(start: Instant, before: seq<Instant>, w: seq<Instant>, rate: nat, i: nat, j: nat)
    requires i <= j < |w|
  {
    AllowedCount(start, before + w[i..j + 1], rate, |before|, |before| + j + 1 - i) as real
    <= rate as real + Gain(w[j] - w[i], rate)
  }

  /** Every window of the readings, at every rate and from every state of the bucket. */
  ghost predicate AllWindowsBounded(w: seq<Instant>) {
    forall start: Instant, before: seq<Instant>, rate: nat, i: nat, j: nat :: i <= j < |w| ==>
      WindowBounded(start, before, w, rate, i, j)
  }

  lemma {:induction false} OrderedWindow(start: Instant, before: seq<Instant>, w: seq<Instant>, rate: nat,
                                         i: nat, j: nat)
    requires Nondecreasing(w) && i <= j < |w|
    ensures WindowBounded(start, before, w, rate, i, j)
  {
    var times, first, last := before + w[i..j + 1], |before|, |before| + j - i;
    assert times[first] == w[i] && times[last] == w[j];
    forall a, b | first <= a < b <= last ensures times[a] <= times[b] {
      assert times[a] == w[i + a - first] && times[b] == w[i + b - first];
    }
    MonotoneBound(start, times, rate, first, last);
  }

  lemma {:induction false} CountGrows(start: Instant, times: seq<Instant>, rate: nat, i: nat, j: nat)
    requires i < j <= |times| && Allowed(start, times, rate, i)
    ensures AllowedCount(start, times, rate, i, j) >= 1
    decreases j
  {
    if i + 1 < j { CountGrows(start, times, rate, i, j - 1); }
  }

  lemma {:induction false} FirstCallPasses(times: seq<Instant>, rate: nat)
    requires times != [] && rate == 1
    ensures AllowedCount(times[0], times, rate, 0, |times|) >= 1
  {
    GainIsProduct(0.0, rate);
    assert Allowed(times[0], times, rate, 0);
    CountGrows(times[0], times, rate, 0, |times|);
  }

  /** A window that ends with an earlier reading than it began allows less than one call. */
  lemma {:induction false} InvertedWindow(w: seq<Instant>, a: nat, b: nat, rate: nat)
    requires a < b < |w| && w[a] > w[b] && rate == 1
    ensures !WindowBounded(w[a], [], w, rate, a, b)
  {
    var window := w[a..b + 1];
    assert [] + window == window && window[0] == w[a];
    FirstCallPasses(window, rate);
    GainIsProduct(w[b] - w[a], rate);
  }

  /** The bound by the readings holds for all windows exactly when the readings are in order. */
  lemma {:induction false} WindowsBoundedExactly(w: seq<Instant>)
    ensures AllWindowsBounded(w) <==> Nondecreasing(w)
  {
    if Nondecreasing(w) {
      forall start: Instant, before: seq<Instant>, rate: nat, i: nat, j: nat | i <= j < |w|
        ensures WindowBounded(start, before, w, rate, i, j)
      {
        OrderedWindow(start, before, w, rate, i, j);
      }
    }
    if AllWindowsBounded(w) {
      forall a, b | 0 <= a < b < |w| ensures w[a] <= w[b] {
        if w[a] > w[b] { InvertedWindow(w, a, b, 1); }
      }
    }
  }

  // ---- Out of order, no span bounds the acceptances ------------------------------------------

  predicate InSpan(times: seq<Instant>, earliest: Instant, latest: Instant) {
    forall t :: t in times ==> earliest <= t <= latest
  }

  /** 1, 0, 1, 0, ..., 1 with n zeros. */
  function Alternating(n: nat): (times: seq<Instant>)
    ensures |times| == 2 * n + 1
  {
    seq(2 * n + 1, k requires 0 <= k < 2 * n + 1 => if k % 2 == 0 then 1.0 else 0.0)
  }

  /** Each reading of 1 refills the bucket for one request, each reading of 0 rewinds it. */
  lemma {:induction false} AlternatingCount(n: nat, k: nat, rate: nat)
    requires k <= n && rate == 1
    ensures AfterCalls(0.0, Alternating(n), rate, 2 * k + 1) == Bucket(0.0, 1.0)
    ensures AllowedCount(0.0, Alternating(n), rate, 0, 2 * k + 1) == k + 1
    decreases k
  {
    var times := Alternating(n);
    GainIsProduct(0.0, rate);
    GainIsProduct(1.0, rate);
    if k > 0 {
      AlternatingCount(n, k - 1, rate);
      assert times[2 * k - 1] == 0.0 && times[2 * k] == 1.0;
      assert AfterCalls(0.0, times, rate, 2 * k) == Bucket(0.0, 0.0) && !Allowed(0.0, times, rate, 2 * k - 1);
      assert AfterCalls(0.0, times, rate, 2 * k + 1) == Bucket(0.0, 1.0) && Allowed(0.0, times, rate, 2 * k);
      assert AllowedCount(0.0, times, rate, 0, 2 * k) == k;
    } else {
      assert AfterCalls(0.0, times, rate, 0) == Bucket(1.0, 0.0) && Allowed(0.0, times, rate, 0);
      assert AllowedCount(0.0, times, rate, 0, 0) == 0;
    }
  }

  /** Out of order there is no bound by the span of the readings at all: within one second,
      at rate 1, any number of requests can be let through. */
  lemma {:induction false} OutOfOrderExceedsSpan(count: nat) returns (times: seq<Instant>, rate: nat)
    ensures rate == 1 && InSpan(times, 0.0, 1.0)
    ensures AllowedCount(0.0, times, rate, 0, |times|) > count
  {
    times, rate := Alternating(count), 1;
    AlternatingCount(count, count, rate);
  }
}
