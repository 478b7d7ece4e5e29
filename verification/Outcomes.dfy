/** What becomes of the outcomes of a refresh: from the moment its fetches are done, in every
    interleaving, the task stores exactly these outcomes and reports exactly these failures
    to the scheduler. */
module Outcomes {
  import opened Common
  import opened Providers
  import opened Errors
  import opened Averages
  import opened Pricing
  import opened Batches
  import opened Refresh
  import opened Protocol
  import opened ProtocolProofs
  import Runs = RefreshRuns

  /** Task `pid` is past its fetches, which ended in world `done` with these results. */
  ghost predicate Carries(w: World, done: World, pid: nat, plan: Plan, results: seq<Fetched>, batch: Batch) {
    && pid < w.nextPid
    && (pid in w.processes ==>
          match w.processes[pid]
          case Storing(p, rs, b) =>
            p == plan && rs == results && b == batch && w.db == done.db && w.history == done.history
          case Stored(p, failures) => p == plan && failures == batch.failures
          case Completed => true
          case _ => false)
  }

  lemma {:induction false} CarriesHandler(w: World, done: World, pid: nat, plan: Plan, results: seq<Fetched>,
                                          batch: Batch, other: nat, s: HandlerStep, cfg: Config)
    requires Carries(w, done, pid, plan, results, batch) && HandlerEnabled(w, other, s)
    ensures Carries(HandlerNext(w, other, s, cfg), done, pid, plan, results, batch)
  {
  }

  lemma {:induction false} CarriesTask(w: World, done: World, pid: nat, plan: Plan, results: seq<Fetched>,
                                       batch: Batch, other: nat, s: TaskStep, cfg: Config)
    requires Mutex(w) && Carries(w, done, pid, plan, results, batch) && TaskEnabled(w, other, s)
    ensures Carries(TaskNext(w, other, s, cfg), done, pid, plan, results, batch)
  {
  }

  lemma {:induction false} CarriesNext(w: World, done: World, pid: nat, plan: Plan, results: seq<Fetched>,
                                       batch: Batch, e: Event, cfg: Config)
    requires Mutex(w) && Carries(w, done, pid, plan, results, batch)
    requires Enabled(w, e) && !(e.Env? && e.env.Crash?)
    ensures Carries(Next(w, e, cfg), done, pid, plan, results, batch)
  {
    match e
    case Env(s) =>
    case Request(other, s) => CarriesHandler(w, done, pid, plan, results, batch, other, s, cfg);
    case Background(other, s) => CarriesTask(w, done, pid, plan, results, batch, other, s, cfg);
    case Server(s) =>
  }

  lemma {:induction false} CarriesExec(w: World, done: World, pid: nat, plan: Plan, results: seq<Fetched>,
                                       batch: Batch, events: seq<Event>, cfg: Config)
    requires Mutex(w) && Carries(w, done, pid, plan, results, batch)
    requires EnabledRun(w, events, cfg) && NoCrash(events)
    ensures Carries(Exec(w, events, cfg), done, pid, plan, results, batch)
    decreases |events|
  {
    if events != [] {
      assert events[0] in events;
      assert forall e :: e in events[1..] ==> e in events;
      CarriesNext(w, done, pid, plan, results, batch, events[0], cfg);
      MutexNext(w, events[0], cfg);
      CarriesExec(Next(w, events[0], cfg), done, pid, plan, results, batch, events[1..], cfg);
    }
  }

  /** What the fetches of a reachable world work for. */
  lemma {:induction false} FetchingMeaning(w: World, start: Committed, pid: nat, cfg: Config)
    requires Reachable(w, start, cfg) && pid in w.processes && w.processes[pid].Fetching?
    ensures Mutex(w) && w.guard == Some(pid) && w.processes[pid].snapshot == w.db.snapshot
    ensures InOrder(w.processes[pid].plan.sources)
  {
    ReachableInv(w, start, cfg);
    var r :| Scheduled(w, r, cfg);
    assert Runs.Reachable(r, cfg.horizon);
    Runs.ReachableTurn(r, cfg.horizon);
    assert Runs.WellShaped(r.issued[|r.issued| - 1].1);
  }

  /** The world right after the fetches of `pid` ended, and any later world of the process. */
  ghost predicate FetchedThen(w: World, start: Committed, pid: nat, results: seq<Fetched>, events: seq<Event>,
                              cfg: Config) {
    && Reachable(w, start, cfg) && TaskEnabled(w, pid, FetchDone(results))
    && EnabledRun(Next(w, Background(pid, FetchDone(results)), cfg), events, cfg) && NoCrash(events)
  }

  ghost function Later(w: World, pid: nat, results: seq<Fetched>, events: seq<Event>, cfg: Config): World
    requires TaskEnabled(w, pid, FetchDone(results))
    requires EnabledRun(Next(w, Background(pid, FetchDone(results)), cfg), events, cfg)
  {
    Exec(Next(w, Background(pid, FetchDone(results)), cfg), events, cfg)
  }

  lemma {:induction false} StillCarries(w: World, start: Committed, pid: nat, results: seq<Fetched>,
                                        events: seq<Event>, cfg: Config)
    requires FetchedThen(w, start, pid, results, events, cfg)
    ensures Carries(Later(w, pid, results, events, cfg), w, pid, w.processes[pid].plan, results,
                    BatchOf(w.db.snapshot, results, w.unix))
    ensures InOrder(w.processes[pid].plan.sources)
  {
    FetchingMeaning(w, start, pid, cfg);
    var w' := Next(w, Background(pid, FetchDone(results)), cfg);
    MutexNext(w, Background(pid, FetchDone(results)), cfg);
    CarriesExec(w', w, pid, w.processes[pid].plan, results, BatchOf(w.db.snapshot, results, w.unix), events, cfg);
  }

  /** The scheduler is told of exactly the fetches that failed, each with its own error, at
      the instant of completion, whether or not the write succeeded and whatever else
      happened between. */
  lemma {:induction false} FailuresReported(w: World, start: Committed, pid: nat, results: seq<Fetched>,
                                            events: seq<Event>, cfg: Config, i: nat)
    requires FetchedThen(w, start, pid, results, events, cfg)
    requires TaskEnabled(Later(w, pid, results, events, cfg), pid, CallComplete) && i < |results|
    ensures var before := Later(w, pid, results, events, cfg);
            var after := TaskNext(before, pid, CallComplete, cfg);
            && |after.log| == |before.log| + 1
            && after.log[..|before.log|] == before.log
            && var last := after.log[|before.log|];
               && last.Complete? && last.now == before.mono && last.nowUnix == before.unix
               && FailureOf(last.failures, results[i].provider)
                  == if results[i].result.Err? then Some(results[i].result.error) else None
  {
    StillCarries(w, start, pid, results, events, cfg);
    FailuresMeaning(w.processes[pid].plan.sources, results, i);
  }

  /** A failed write leaves the stored state alone; a successful one stores every outcome: each
      fetched quote, each provider's attempt, and a snapshot made when the fetches ended.
      What was not fetched stays as it was. */
  lemma {:induction false} OutcomesStored(w: World, start: Committed, pid: nat, results: seq<Fetched>,
                                          events: seq<Event>, cfg: Config, ok: bool, i: nat)
    requires FetchedThen(w, start, pid, results, events, cfg)
    requires TaskEnabled(Later(w, pid, results, events, cfg), pid, Commit(ok)) && i < |results|
    ensures var after := TaskNext(Later(w, pid, results, events, cfg), pid, Commit(ok), cfg);
            var f, name := results[i], Name(results[i].provider);
            && pid in after.ioStored
            && (!ok ==> after.db == w.db && after.history == w.history)
            && (ok ==>
                  && after.history == w.history + [results]
                  && name in after.db.health
                  && after.db.health[name] == (match f.result
                                               case Ok(_) => Success(f.attemptedAt)
                                               case Err(e) => Failure(f.attemptedAt, HealthError(e)))
                  && (f.result.Ok? ==>
                        && after.db.snapshot.Some? && after.db.snapshot.value.fetchedAt == w.unix
                        && Quote(name, f.result.value.price, Some(f.result.value.time), KindOf(f.provider))
                           in after.db.snapshot.value.sources)
                  && ((forall g :: g in results ==> g.result.Err?) ==> after.db.snapshot == w.db.snapshot))
  {
    StillCarries(w, start, pid, results, events, cfg);
    var sources := w.processes[pid].plan.sources;
    AttemptsMeaning(w.db.health, sources, results, i);
    SnapshotMeaning(w.db.snapshot, sources, results, w.unix);
    if results[i].result.Ok? {
      FetchedQuoteStored(w.db.snapshot, sources, results, w.unix, i);
    }
  }

  /** The figures and labels of the snapshot a successful write leaves. */
  lemma {:induction false} SnapshotStored(w: World, start: Committed, pid: nat, results: seq<Fetched>,
                                          events: seq<Event>, cfg: Config)
    requires FetchedThen(w, start, pid, results, events, cfg)
    requires TaskEnabled(Later(w, pid, results, events, cfg), pid, Commit(true))
    requires exists f :: f in results && f.result.Ok?
    ensures var db := TaskNext(Later(w, pid, results, events, cfg), pid, Commit(true), cfg).db;
            && db.snapshot.Some?
            && var s := db.snapshot.value;
               var prices := seq(|s.sources|, i requires 0 <= i < |s.sources| => s.sources[i].price);
               && s.sources != []
               && s.averagePrice == Some(Mean(prices)) && s.spread == Some(Spread(prices))
               && |s.warnings| == |FailuresOf(results)|
               && (forall k :: 0 <= k < |s.warnings| ==> s.warnings[k] == FailuresOf(results)[k].message)
               && s.refreshedSource == Some(RefreshedSource(QuotesOf(results)))
  {
    StillCarries(w, start, pid, results, events, cfg);
    SnapshotMeaning(w.db.snapshot, w.processes[pid].plan.sources, results, w.unix);
    var s := TaskNext(Later(w, pid, results, events, cfg), pid, Commit(true), cfg).db.snapshot.value;
    assert PricesOf(s.sources) == seq(|s.sources|, i requires 0 <= i < |s.sources| => s.sources[i].price);
  }

  /** Providers the plan did not ask keep their health record. */
  lemma {:induction false} OthersUntouched(w: World, start: Committed, pid: nat, results: seq<Fetched>,
                                           events: seq<Event>, cfg: Config, source: string)
    requires FetchedThen(w, start, pid, results, events, cfg)
    requires TaskEnabled(Later(w, pid, results, events, cfg), pid, Commit(true))
    requires forall f :: f in results ==> Name(f.provider) != source
    ensures var health := TaskNext(Later(w, pid, results, events, cfg), pid, Commit(true), cfg).db.health;
            (source in health <==> source in w.db.health)
            && (source in health ==> health[source] == w.db.health[source])
  {
    StillCarries(w, start, pid, results, events, cfg);
    OthersKeepHealth(w.db.health, results, source);
  }
}
