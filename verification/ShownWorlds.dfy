/** What the dashboard shows in the worlds the protocol can reach. */
module ShownWorlds {
  import opened Common
  import opened Errors
  import opened Pricing
  import opened Batches
  import opened Freshness
  import opened Handlers
  import opened Client
  import opened Protocol
  import opened ProtocolProofs

  /** Once any quote is committed the stored list holds one quote per source, in order. */
  lemma {:induction false} StoredOrdered(w: World, start: Committed, cfg: Config)
    requires Reachable(w, start, cfg)
    requires AllQuotes(w.history) != [] || Ordered(SourcesOf(start.snapshot))
    ensures Ordered(SourcesOf(w.db.snapshot))
  {
    ReachableInv(w, start, cfg);
    FoldIsOneMerge(SourcesOf(start.snapshot), w.history);
  }

  /** In every reachable world that has committed a quote, or began with an ordered list, a
      response without future quotes lets the dashboard show at any later time what the
      server would then answer from the same rows. */
  lemma {:induction false} DashboardRefinesServer(w: World, start: Committed, cfg: Config,
                                                  health: seq<ProviderHealth>, report: Report, now: int, elapsed: nat,
                                                  priceError: bool, presenceError: bool)
    requires Reachable(w, start, cfg)
    requires AllQuotes(w.history) != [] || Ordered(SourcesOf(start.snapshot))
    requires NoFuture(Valids(SourcesOf(w.db.snapshot)), now)
    ensures var stored := Handlers.Stored(w.db.snapshot, health);
            var shown := Displayed(Respond(Some(stored), report, now).1, elapsed, priceError, presenceError);
            var later := Respond(Some(stored), report, now + elapsed).1;
            && SourceNames(shown.contributors) == later.contributing
            && shown.mean == later.average
            && shown.spread == later.spread
            && shown.badge == if priceError then Offline
                              else if presenceError && later.status == Live then Badge.Server(Degraded)
                              else Badge.Server(later.status)
  {
    StoredOrdered(w, start, cfg);
    OrderedHasNoTies(SourcesOf(w.db.snapshot), now);
    ClientRefinesServer(Handlers.Stored(w.db.snapshot, health), report, now, elapsed, priceError, presenceError);
  }
}
