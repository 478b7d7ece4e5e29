/** The incremental average used by the server and by the dashboard. */
module Averages {
  import opened Common

  function Sum(prices: seq<real>, k: nat): real
    requires k <= |prices|
  {
    if k == 0 then 0.0 else Sum(prices, k - 1) + prices[k - 1]
  }

  function Mean(prices: seq<real>): real
    requires prices != []
  {
    Sum(prices, |prices|) / |prices| as real
  }

  /** Smallest and largest of the first k prices. */
  function Lowest(prices: seq<real>, k: nat): real
    requires 1 <= k <= |prices|
  {
    if k == 1 then prices[0]
    else if prices[k - 1] < Lowest(prices, k - 1) then prices[k - 1] else Lowest(prices, k - 1)
  }

  function Highest(prices: seq<real>, k: nat): real
    requires 1 <= k <= |prices|
  {
    if k == 1 then prices[0]
    else if prices[k - 1] > Highest(prices, k - 1) then prices[k - 1] else Highest(prices, k - 1)
  }

  function Spread(prices: seq<real>): real
    requires prices != []
  {
    Highest(prices, |prices|) - Lowest(prices, |prices|)
  }

  /** One update of a running average over n - 1 prices by the n-th. */
  function Moved(average: real, price: real, n: nat): real
    requires n >= 1
  {
    average + (price - average) / n as real
  }

  /** The value of the running average after k prices. */
  function Running(prices: seq<real>, k: nat): real
    requires 1 <= k <= |prices|
  {
    if k == 1 then prices[0] else Moved(Running(prices, k - 1), prices[k - 1], k)
  }

  lemma {:induction false} MovedIsWeighted(average: real, price: real, n: nat)
    requires n >= 1
    ensures n as real * Moved(average, price, n) == (n - 1) as real * average + price
  {
    var m := n as real;
    var step := (price - average) / m;
    assert m * step == price - average;
    assert m * (average + step) == m * average + m * step;
    assert (m - 1.0) * average == m * average - average;
  }

  /** An update moves towards the new price and not past it. */
  lemma {:induction false} MovedBetween(average: real, price: real, n: nat)
    requires n >= 1
    ensures average <= price ==> average <= Moved(average, price, n) <= price
    ensures price <= average ==> price <= Moved(average, price, n) <= average
  {
    var m := n as real;
    var step := (price - average) / m;
    assert m * step == price - average;
    Fraction(price - average, m);
  }

  lemma {:induction false} Fraction(d: real, m: real)
    requires m >= 1.0
    ensures d >= 0.0 ==> 0.0 <= d / m <= d
    ensures d <= 0.0 ==> d <= d / m <= 0.0
  {
    var q := d / m;
    assert q * m == d;
    assert (-q) * m == -d;
    SignOfProduct(q, m);
    SignOfProduct(-q, m);
  }

  lemma {:induction false} SignOfProduct(q: real, m: real)
    requires m >= 1.0
    ensures q < 0.0 ==> q * m < 0.0
    ensures q >= 0.0 ==> q * m >= q
  {
    assert q * m - q == q * (m - 1.0);
  }

  /** The running average is the arithmetic mean of the prices so far. */
  lemma {:induction false} RunningIsMean(prices: seq<real>, k: nat)
    requires 1 <= k <= |prices|
    ensures k as real * Running(prices, k) == Sum(prices, k)
    ensures Running(prices, k) == Sum(prices, k) / k as real
  {
    if k == 1 {
      assert Sum(prices, 1) == Sum(prices, 0) + prices[0];
    } else {
      RunningIsMean(prices, k - 1);
      MovedIsWeighted(Running(prices, k - 1), prices[k - 1], k);
    }
    Quotient(Running(prices, k), Sum(prices, k), k as real);
  }

  lemma {:induction false} Quotient(a: real, s: real, m: real)
    requires m >= 1.0 && m * a == s
    ensures a == s / m
  {
    assert m * (s / m) == s;
    assert m * (a - s / m) == 0.0;
  }

  /** No partial average leaves the range of the prices seen so far. */
  lemma {:induction false} RunningBetween(prices: seq<real>, k: nat)
    requires 1 <= k <= |prices|
    ensures Lowest(prices, k) <= Running(prices, k) <= Highest(prices, k)
  {
    if k > 1 {
      RunningBetween(prices, k - 1);
      MovedBetween(Running(prices, k - 1), prices[k - 1], k);
    }
  }

  lemma {:induction false} RangeOfPrices(prices: seq<real>, k: nat)
    requires 1 <= k <= |prices|
    ensures forall i :: 0 <= i < k ==> Lowest(prices, k) <= prices[i] <= Highest(prices, k)
    ensures exists i :: 0 <= i < k && prices[i] == Lowest(prices, k)
    ensures exists i :: 0 <= i < k && prices[i] == Highest(prices, k)
  {
    if k > 1 { RangeOfPrices(prices, k - 1); }
  }

  /** All prices lie between these two. */
  predicate Spans(prices: seq<real>, low: nat, high: nat) {
    && low < |prices| && high < |prices|
    && forall i :: 0 <= i < |prices| ==> prices[low] <= prices[i] <= prices[high]
  }

  /** The spread is the distance of two of the prices between which all others lie; it is
      never negative, and zero exactly when all prices are equal. */
  lemma {:induction false} SpreadMeaning(prices: seq<real>)
    requires prices != []
    ensures exists low: nat, high: nat :: Spans(prices, low, high) && Spread(prices) == prices[high] - prices[low]
    ensures Spread(prices) >= 0.0
    ensures Spread(prices) == 0.0 <==> forall i :: 0 <= i < |prices| ==> prices[i] == prices[0]
  {
    RangeOfPrices(prices, |prices|);
    var low :| 0 <= low < |prices| && prices[low] == Lowest(prices, |prices|);
    var high :| 0 <= high < |prices| && prices[high] == Highest(prices, |prices|);
    assert Spans(prices, low, high);
  }

  /** Differences taken by the loop are bounded by the spread, so they stay in range
      whenever the prices do. */
  lemma {:induction false} StepsBounded(prices: seq<real>, k: nat)
    requires 1 <= k < |prices|
    ensures -Spread(prices) <= prices[k] - Running(prices, k) <= Spread(prices)
  {
    RunningBetween(prices, k);
    RangeOfPrices(prices, k);
    RangeOfPrices(prices, |prices|);
  }

  /** The averaging loop. */
  method Average(prices: seq<real>) returns (average: Option<real>)
    ensures average == if prices == [] then None else Some(Mean(prices))
  {
    if prices == [] {
      return None;
    }
    var mean := prices[0];
    var index := 1;
    while index < |prices|
      invariant 1 <= index <= |prices|
      invariant mean == Running(prices, index)
    {
      mean := mean + (prices[index] - mean) / (index + 1) as real;
      index := index + 1;
    }
    RunningIsMean(prices, |prices|);
    average := Some(mean);
  }
}
