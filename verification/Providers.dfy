/** The four configured price providers, in configured order. */
module Providers {
  datatype Provider = CoinGecko | Coinbase | Kraken | Gemini

  datatype QuoteKind = Aggregate | Spot | LastTrade | Bid | UnknownKind

  const COUNT: nat := 4
  const ALL: seq<Provider> := [CoinGecko, Coinbase, Kraken, Gemini]

  /** Position of a provider in the configured order. */
  function Index(p: Provider): (i: nat)
    ensures i < COUNT && ALL[i] == p
  {
    match p
    case CoinGecko => 0
    case Coinbase => 1
    case Kraken => 2
    case Gemini => 3
  }

  function Name(p: Provider): string {
    match p
    case CoinGecko => "CoinGecko"
    case Coinbase => "Coinbase"
    case Kraken => "Kraken"
    case Gemini => "Gemini"
  }

  function KindOf(p: Provider): QuoteKind {
    match p
    case CoinGecko => Aggregate
    case Coinbase => Spot
    case Kraken => LastTrade
    case Gemini => Bid
  }

  predicate Configured(source: string) {
    exists p: Provider :: Name(p) == source
  }

  lemma {:induction false} IndexInjective(p: Provider, q: Provider)
    requires Index(p) == Index(q)
    ensures p == q
  {
    assert ALL[Index(p)] == ALL[Index(q)];
  }

  /** Names identify providers. */
  lemma {:induction false} NameInjective(p: Provider, q: Provider)
    requires Name(p) == Name(q)
    ensures p == q
  {
    assert |Name(CoinGecko)| == 9 && |Name(Coinbase)| == 8;
    assert Name(Kraken)[0] == 'K' && Name(Gemini)[0] == 'G';
  }
}
