/** Activations in the protocol: which plans are full, which request may miss the newest
    activation, and that no other does (src/handlers.rs, src/refresh.rs). */
module Activations {
  import opened Common
  import opened Providers
  import opened Batches
  import opened Refresh
  import opened Protocol
  import opened ProtocolProofs
  import Presence
  import Runs = RefreshRuns

  predicate Asking(w: World, pid: nat) {
    pid in w.processes && w.processes[pid].Requested?
  }

  /** What the request is answered if it asks for a plan now. */
  function Answered(w: World, pid: nat): Begun
    requires Asking(w, pid)
  {
    AfterBegin(w.scheduler, w.mono, w.processes[pid].generation)
  }

  ghost predicate Served(r: Runs.Run, g: nat) {
    exists done :: done in r.acknowledged && done.generation >= g
  }

  /** The scheduler's acknowledged generation stands for the full plans that completed. */
  lemma {:induction false} ServedMeaning(r: Runs.Run, horizon: Instant, g: nat)
    requires Runs.Reachable(r, horizon) && g > 0
    ensures Served(r, g) <==> r.coordinator.completedGeneration >= g
  {
    Runs.ReachableInv(r, horizon);
    if r.acknowledged != [] {
      assert r.acknowledged[|r.acknowledged| - 1] in r.acknowledged;
    }
    forall done | done in r.acknowledged ensures done.generation <= r.coordinator.completedGeneration {
      var k :| 0 <= k < |r.acknowledged| && r.acknowledged[k] == done;
      Runs.AcknowledgedSorted(r, k);
    }
  }

  // ---- Exactly which plans are full ----------------------------------------------------

  /** The plan is ordinary although activation `g` has not been served. */
  predicate Misses(w: World, pid: nat, g: nat)
    requires Asking(w, pid)
  {
    var begun := Answered(w, pid);
    begun.result.Ok? && !begun.result.value.full && w.scheduler.completedGeneration < g
  }

  /** The same for a scheduler run, by the generation acknowledged last. */
  lemma {:induction false} FullInRun(r: Runs.Run, horizon: Instant, now: Instant, loaded: nat, g: nat)
    requires Runs.Reachable(r, horizon) && Runs.Shaped(r) && r.seen <= loaded
    requires AfterBegin(r.coordinator, now, loaded).result.Ok?
    ensures var full, served := AfterBegin(r.coordinator, now, loaded).result.value.full,
                                r.coordinator.completedGeneration;
            && (full <==> loaded > 0 && !Served(r, loaded))
            && (served < g <==> g > 0 && !Served(r, g))
            && (!full && served < g <==> served == loaded < g)
  {
    Runs.ReachableInv(r, horizon);
    BeginMeaning(r.coordinator, now, loaded);
    if loaded > 0 { ServedMeaning(r, horizon, loaded); }
    if g > 0 { ServedMeaning(r, horizon, g); }
  }

  /** In every interleaving a plan is full exactly when the generation its request loaded
      has not been served. It misses activation g exactly when g was published after
      the load and the loaded generation is the one served last. */
  lemma {:induction false} FullExactly(w: World, start: Committed, cfg: Config, pid: nat, g: nat)
    returns (r: Runs.Run)
    requires Reachable(w, start, cfg) && Asking(w, pid) && Answered(w, pid).result.Ok?
    ensures Runs.Reachable(r, cfg.horizon) && Logged(w, r, cfg)
    ensures var loaded, plan := w.processes[pid].generation, Answered(w, pid).result.value;
            && loaded <= w.viewers.generation
            && (plan.full <==> loaded > 0 && !Served(r, loaded))
            && (Misses(w, pid, g) <==> !plan.full && g > 0 && !Served(r, g))
            && (Misses(w, pid, g) <==> w.scheduler.completedGeneration == loaded < g)
  {
    r := RunOfAsking(w, start, cfg, pid);
    FullInRun(r, cfg.horizon, w.mono, w.processes[pid].generation, g);
  }

  lemma {:induction false} RunOfAsking(w: World, start: Committed, cfg: Config, pid: nat) returns (r: Runs.Run)
    requires Reachable(w, start, cfg) && Asking(w, pid)
    ensures Runs.Reachable(r, cfg.horizon) && Logged(w, r, cfg) && Runs.Shaped(r)
    ensures r.coordinator == w.scheduler && r.seen <= w.processes[pid].generation <= w.viewers.generation
  {
    ReachableInv(w, start, cfg);
    r :| Scheduled(w, r, cfg);
    assert w.guard == Some(pid);
  }

  // ---- Later requests see the activation ----------------------------------------------------

  /** Generation `g` is published, and whoever is about to ask, but `late`, loaded it. */
  ghost predicate LoadedSince(w: World, g: nat, late: Option<nat>) {
    && g <= w.viewers.generation
    && (w.guard.Some? && Asking(w, w.guard.value) ==>
          g <= w.processes[w.guard.value].generation || w.guard == late)
  }

  lemma {:induction false} LoadedSinceEnv(w: World, s: EnvStep, g: nat, late: Option<nat>, cfg: Config)
    requires LoadedSince(w, g, late) && EnvEnabled(w, s) && !s.Crash?
    ensures LoadedSince(EnvNext(w, s, cfg), g, late)
  {
  }

  lemma {:induction false} LoadedSinceHandler(w: World, pid: nat, s: HandlerStep, g: nat, late: Option<nat>,
                                              cfg: Config)
    requires Mutex(w) && LoadedSince(w, g, late) && HandlerEnabled(w, pid, s)
    ensures LoadedSince(HandlerNext(w, pid, s, cfg), g, late)
  {
  }

  lemma {:induction false} LoadedSinceTask(w: World, pid: nat, s: TaskStep, g: nat, late: Option<nat>,
                                           cfg: Config)
    requires Mutex(w) && LoadedSince(w, g, late) && TaskEnabled(w, pid, s)
    ensures LoadedSince(TaskNext(w, pid, s, cfg), g, late)
  {
  }

  lemma {:induction false} LoadedSinceServer(w: World, s: ServerStep, g: nat, late: Option<nat>)
    requires LoadedSince(w, g, late) && ServerEnabled(w, s)
    ensures LoadedSince(ServerNext(w, s), g, late)
  {
  }

  lemma {:induction false} LoadedSinceNext(w: World, e: Event, g: nat, late: Option<nat>, cfg: Config)
    requires Mutex(w) && LoadedSince(w, g, late) && Enabled(w, e) && !(e.Env? && e.env.Crash?)
    ensures LoadedSince(Next(w, e, cfg), g, late)
  {
    match e
    case Env(s) => LoadedSinceEnv(w, s, g, late, cfg);
    case Request(pid, s) => LoadedSinceHandler(w, pid, s, g, late, cfg);
    case Background(pid, s) => LoadedSinceTask(w, pid, s, g, late, cfg);
    case Server(s) => LoadedSinceServer(w, s, g, late);
  }

  lemma {:induction false} LoadedSinceExec(w: World, events: seq<Event>, g: nat, late: Option<nat>,
                                           cfg: Config)
    requires Mutex(w) && LoadedSince(w, g, late) && EnabledRun(w, events, cfg) && NoCrash(events)
    ensures LoadedSince(Exec(w, events, cfg), g, late)
    decreases |events|
  {
    if events != [] {
      LoadedSinceNext(w, events[0], g, late, cfg);
      MutexNext(w, events[0], cfg);
      LoadedSinceExec(Next(w, events[0], cfg), events[1..], g, late, cfg);
    }
  }

  /** No activation is lost: once generation g is published, every request that was not
      already about to ask gets full plans until a full plan that captured at least g has
      completed, whatever happens meanwhile in the same process. */
  lemma {:induction false} ActivationServed(w: World, start: Committed, events: seq<Event>, cfg: Config,
                                            pid: nat) returns (r: Runs.Run)
    requires Reachable(w, start, cfg) && EnabledRun(w, events, cfg) && NoCrash(events)
    requires !Asking(w, pid) && Asking(Exec(w, events, cfg), pid)
    ensures Logged(Exec(w, events, cfg), r, cfg)
    ensures var w', g := Exec(w, events, cfg), w.viewers.generation;
            && !Misses(w', pid, g)
            && (Answered(w', pid).result.Ok? && g > 0 ==> Answered(w', pid).result.value.full || Served(r, g))
  {
    ReachableInv(w, start, cfg);
    var w', g := Exec(w, events, cfg), w.viewers.generation;
    LoadedSinceExec(w, events, g, if w.guard.Some? && Asking(w, w.guard.value) then w.guard else None, cfg);
    ExecKeepsInv(w, start, events, cfg);
    assert w'.guard == Some(pid) && g <= w'.processes[pid].generation;
    ReachableExec(w, start, events, cfg);
    if Answered(w', pid).result.Ok? {
      r := FullExactly(w', start, cfg, pid, g);
    } else {
      r :| Scheduled(w', r, cfg);
    }
  }

  // ---- At most one plan misses it ---------------------------------------------------------------

  /** The event hands out a plan that misses activation `g`. */
  predicate Miss(w: World, e: Event, g: nat)
    requires Enabled(w, e)
  {
    e.Request? && e.handler.CallBegin? && Misses(w, e.pid, g)
  }

  ghost function MissesIn(w: World, events: seq<Event>, g: nat, cfg: Config): nat
    requires EnabledRun(w, events, cfg)
    decreases |events|
  {
    if events == [] then 0
    else MissesIn(Next(w, events[0], cfg), events[1..], g, cfg) + if Miss(w, events[0], g) then 1 else 0
  }

  lemma {:induction false} NoMiss(w: World, e: Event, start: Committed, g: nat, cfg: Config)
    requires Inv(w, start, cfg) && LoadedSince(w, g, None) && Enabled(w, e)
    ensures !Miss(w, e, g)
  {
    if e.Request? && e.handler.CallBegin? {
      var r :| Scheduled(w, r, cfg);
      BeginMeaning(w.scheduler, w.mono, w.processes[e.pid].generation);
    }
  }

  lemma {:induction false} NoMisses(w: World, start: Committed, events: seq<Event>, g: nat, cfg: Config)
    requires Inv(w, start, cfg) && LoadedSince(w, g, None) && EnabledRun(w, events, cfg) && NoCrash(events)
    ensures MissesIn(w, events, g, cfg) == 0
    decreases |events|
  {
    if events != [] {
      NoMiss(w, events[0], start, g, cfg);
      LoadedSinceNext(w, events[0], g, None, cfg);
      InvNext(w, start, events[0], cfg);
      assert forall e :: e in events[1..] ==> e in events;
      NoMisses(Next(w, events[0], cfg), start, events[1..], g, cfg);
    }
  }

  /** The request that was about to ask has asked. */
  lemma {:induction false} AskedIsPast(w: World, pid: nat, child: nat, g: nat, cfg: Config)
    requires Mutex(w) && HandlerEnabled(w, pid, CallBegin(child)) && g <= w.viewers.generation
    ensures LoadedSince(HandlerNext(w, pid, CallBegin(child), cfg), g, None)
  {
  }

  lemma {:induction false} MissesBounded(w: World, start: Committed, events: seq<Event>, g: nat, cfg: Config)
    requires Inv(w, start, cfg) && g <= w.viewers.generation
    requires EnabledRun(w, events, cfg) && NoCrash(events)
    ensures MissesIn(w, events, g, cfg)
            <= if w.guard.Some? && Asking(w, w.guard.value) && w.processes[w.guard.value].generation < g then 1 else 0
    decreases |events|
  {
    if LoadedSince(w, g, None) {
      NoMisses(w, start, events, g, cfg);
    } else if events != [] {
      var e := events[0];
      var w' := Next(w, e, cfg);
      InvNext(w, start, e, cfg);
      assert e in events;
      assert forall e :: e in events[1..] ==> e in events;
      if e.Request? && e.handler.CallBegin? {
        AskedIsPast(w, e.pid, e.handler.child, g, cfg);
        NoMisses(w', start, events[1..], g, cfg);
      } else {
        LoadedSinceNext(w, e, g, w.guard, cfg);
        MissesBounded(w', start, events[1..], g, cfg);
      }
    }
  }

  /** Over every run after the publication of g at most one plan misses it, and only when a
      request had loaded an older generation and not yet asked. */
  lemma {:induction false} AtMostOneMiss(w: World, start: Committed, events: seq<Event>, cfg: Config)
    requires Reachable(w, start, cfg) && EnabledRun(w, events, cfg) && NoCrash(events)
    ensures var g := w.viewers.generation;
            && MissesIn(w, events, g, cfg) <= 1
            && (MissesIn(w, events, g, cfg) == 1 ==>
                  w.guard.Some? && Asking(w, w.guard.value) && w.processes[w.guard.value].generation < g)
  {
    ReachableInv(w, start, cfg);
    MissesBounded(w, start, events, w.viewers.generation, cfg);
  }

  // ---- The window is real -----------------------------------------------------------------------

  const VIEWER: Presence.Session := "s"

  /** One viewer since instant 0, no snapshot, no refresh at work. */
  predicate Quiet(w: World, mono: Instant) {
    && w.phase == Serving && !w.stopping && w.guard.None? && w.db.snapshot.None?
    && w.viewers == Presence.Viewers(map[VIEWER := 0.0], 1)
    && 0.0 <= mono <= 15.0 && w.mono == mono
  }

  /** `w` with the guard in the hands of `pid`, which stands at `p`. */
  function Held(w: World, pid: nat, p: Process): World {
    Put(w, pid, p).(guard := Some(pid), nextPid := pid + 1)
  }

  lemma {:induction false} HandlerStepHeld(w: World, start: Committed, pid: nat, p: Process, s: HandlerStep,
                                           p': Process, cfg: Config)
    requires Reachable(Held(w, pid, p), start, cfg) && HandlerEnabled(Held(w, pid, p), pid, s)
    requires HandlerNext(Held(w, pid, p), pid, s, cfg) == Put(Held(w, pid, p), pid, p')
    ensures Reachable(Held(w, pid, p'), start, cfg)
  {
    ReachableNext(Held(w, pid, p), start, Request(pid, s), cfg);
    assert w.processes[pid := p][pid := p'] == w.processes[pid := p'];
  }

  lemma {:induction false} Enters(w: World, start: Committed, cfg: Config)
    requires Reachable(w, start, cfg) && w.phase == Serving && w.guard.None?
    ensures Reachable(Held(w, w.nextPid, Entered(true)), start, cfg)
  {
    var pid := w.nextPid;
    ReachableNext(w, start, Request(pid, Arrive), cfg);
    var w1 := Next(w, Request(pid, Arrive), cfg);
    ReachableNext(w1, start, Request(pid, TryLock), cfg);
    assert w.processes[pid := Arrived][pid := Entered(true)] == w.processes[pid := Entered(true)];
  }

  lemma {:induction false} ObserveHeld(w: World, pid: nat, mono: Instant, cfg: Config)
    requires Quiet(w, mono)
    ensures var h := Held(w, pid, HasRead(true, Some(w.db)));
            HandlerNext(h, pid, Observe, cfg) == Put(h, pid, Observed(true, Some(w.db), 1, w.unix))
  {
    assert Presence.Prune(w.viewers.seen, w.mono) == w.viewers.seen;
    assert |w.viewers.seen| == 1;
  }

  /** A new request goes through the gates up to the load of the generation. */
  lemma {:induction false} Asks(w: World, start: Committed, mono: Instant, cfg: Config)
    requires Reachable(w, start, cfg) && Quiet(w, mono)
    ensures Reachable(Held(w, w.nextPid, Requested(None, 1)), start, cfg)
  {
    var pid := w.nextPid;
    Enters(w, start, cfg);
    HandlerStepHeld(w, start, pid, Entered(true), ReadStored(true), HasRead(true, Some(w.db)), cfg);
    ObserveHeld(w, pid, mono, cfg);
    var observed := Observed(true, Some(w.db), 1, w.unix);
    HandlerStepHeld(w, start, pid, HasRead(true, Some(w.db)), Observe, observed, cfg);
    assert PassesGates(Held(w, pid, observed), observed);
    HandlerStepHeld(w, start, pid, observed, Gate, Admitted(None), cfg);
    HandlerStepHeld(w, start, pid, Admitted(None), LoadGeneration, Requested(None, 1), cfg);
  }

  function Successes(sources: seq<Provider>): (results: seq<Fetched>)
    ensures ResultsFor(sources, results)
    ensures forall i :: 0 <= i < |results| ==> results[i].result.Ok?
  {
    seq(|sources|, i requires 0 <= i < |sources| => Fetched(sources[i], 0, Ok(Quoted(1.0, 0))))
  }

  lemma {:induction false} NoFailures(results: seq<Fetched>)
    requires forall i :: 0 <= i < |results| ==> results[i].result.Ok?
    ensures FailuresOf(results) == []
    decreases |results|
  {
    if results != [] { NoFailures(results[..|results| - 1]); }
  }

  lemma {:induction false} TaskReaches(w: World, start: Committed, pid: nat, s: TaskStep, cfg: Config)
    returns (w': World)
    requires Reachable(w, start, cfg) && TaskEnabled(w, pid, s)
    ensures Reachable(w', start, cfg) && w' == TaskNext(w, pid, s, cfg)
  {
    w' := Next(w, Background(pid, s), cfg);
    ReachableNext(w, start, Background(pid, s), cfg);
  }

  /** A dispatched plan passes both checks and its I/O starts. */
  lemma {:induction false} Starts(w: World, start: Committed, pid: nat, plan: Plan, cfg: Config)
    returns (w': World)
    requires Reachable(w, start, cfg) && Quiet(w.(guard := None), 0.0)
    requires pid in w.processes && w.processes[pid] == Dispatched(plan, None) && w.guard == Some(pid)
    ensures Reachable(w', start, cfg) && Quiet(w'.(guard := None), 0.0)
    ensures w'.scheduler == w.scheduler && w'.unix == w.unix
    ensures pid in w'.processes && w'.processes[pid] == Fetching(plan, None) && w'.guard == Some(pid)
  {
    w' := TaskReaches(w, start, pid, CheckStop, cfg);
    assert Presence.Prune(w'.viewers.seen, w'.mono) == w'.viewers.seen;
    assert VIEWER in w'.viewers.seen;
    w' := TaskReaches(w', start, pid, CheckViewers, cfg);
  }

  /** All fetches succeed and the write fails. */
  lemma {:induction false} Fetches(w: World, start: Committed, pid: nat, plan: Plan, cfg: Config)
    returns (w': World)
    requires Reachable(w, start, cfg)
    requires pid in w.processes && w.processes[pid] == Fetching(plan, None) && w.guard == Some(pid)
    ensures Reachable(w', start, cfg)
    ensures w' == Put(w, pid, Stored(plan, [])).(ioStored := w.ioStored + {pid})
  {
    var results := Successes(plan.sources);
    NoFailures(results);
    var batch := BatchOf(None, results, w.unix);
    w' := TaskReaches(w, start, pid, FetchDone(results), cfg);
    assert w' == Put(w, pid, Storing(plan, results, batch));
    w' := TaskReaches(w', start, pid, Commit(false), cfg);
    assert w.processes[pid := Storing(plan, results, batch)][pid := Stored(plan, [])]
        == w.processes[pid := Stored(plan, [])];
  }

  lemma {:induction false} Finishes(w: World, start: Committed, pid: nat, plan: Plan, cfg: Config)
    returns (w': World)
    requires Reachable(w, start, cfg) && Quiet(w.(guard := None), 0.0)
    requires pid in w.processes && w.processes[pid] == Stored(plan, []) && w.guard == Some(pid)
    ensures Reachable(w', start, cfg) && Quiet(w', 0.0)
    ensures w'.scheduler == AfterComplete(w.scheduler, plan, [], 0.0, w.unix, cfg.horizon)
  {
    w' := TaskReaches(w, start, pid, CallComplete, cfg);
    w' := TaskReaches(w', start, pid, Publish, cfg);
  }

  /** The scheduler's half: generation 1 has been served, and ten seconds later a request that
      loaded it gets an ordinary plan. */
  lemma {:induction false} OrdinaryAgain(unix: int, horizon: Instant)
    ensures var b := AfterBegin(FRESH, 0.0, 1);
            && b.result.Ok? && b.result.value.full
            && var c := AfterComplete(b.coordinator, b.result.value, [], 0.0, unix, horizon);
               && c.completedGeneration == 1
               && var again := AfterBegin(c, 10.0, 1);
                  again.result.Ok? && !again.result.value.full
  {
    BeginMeaning(FRESH, 0.0, 1);
    assert Eligible(FRESH, CoinGecko, 0.0);
    var b := AfterBegin(FRESH, 0.0, 1);
    var c := AfterComplete(b.coordinator, b.result.value, [], 0.0, unix, horizon);
    BeginMeaning(c, 10.0, 1);
    assert Eligible(c, CoinGecko, 10.0);
  }

  lemma {:induction false} EnvReaches(w: World, start: Committed, s: EnvStep, cfg: Config) returns (w': World)
    requires Reachable(w, start, cfg) && EnvEnabled(w, s)
    ensures Reachable(w', start, cfg) && w' == EnvNext(w, s, cfg)
  {
    w' := Next(w, Env(s), cfg);
    ReachableNext(w, start, Env(s), cfg);
  }

  /** A first viewer, and the full plan its activation asks for. */
  lemma {:induction false} FirstPlanCompletes(start: Committed, cfg: Config) returns (w: World)
    requires cfg.cap > 0 && start == Committed(None, map[])
    ensures Reachable(w, start, cfg) && Quiet(w, 10.0)
    ensures var again := AfterBegin(w.scheduler, 10.0, 1);
            w.scheduler.completedGeneration == 1 && again.result.Ok? && !again.result.value.full
  {
    w := Boot(start, 0.0, 0);
    assert EnabledRun(w, [], cfg) && w == Exec(w, [], cfg);
    w := EnvReaches(w, start, Heartbeat(VIEWER, true), cfg);
    assert Quiet(w, 0.0);
    var pid := w.nextPid;
    Asks(w, start, 0.0, cfg);
    w := Held(w, pid, Requested(None, 1));
    OrdinaryAgain(w.unix, cfg.horizon);
    var child, plan := w.nextPid, Answered(w, pid).result.value;
    ReachableNext(w, start, Request(pid, CallBegin(child)), cfg);
    w := Next(w, Request(pid, CallBegin(child)), cfg);
    w := Starts(w, start, child, plan, cfg);
    w := Fetches(w, start, child, plan, cfg);
    w := Finishes(w, start, child, plan, cfg);
    w := EnvReaches(w, start, Tick(10.0), cfg);
  }

  /** Between the load and the call for a plan the only viewer leaves and returns: the plan
      is ordinary although activation 2 has been published and not been served. */
  lemma {:induction false} ActivationMissed(cfg: Config) returns (w: World, pid: nat)
    requires cfg.cap > 0
    ensures Reachable(w, Committed(None, map[]), cfg) && Asking(w, pid)
    ensures w.viewers.generation == 2 && w.processes[pid].generation == 1 && Misses(w, pid, 2)
  {
    var start := Committed(None, map[]);
    w := FirstPlanCompletes(start, cfg);
    pid := w.nextPid;
    Asks(w, start, 10.0, cfg);
    w := Held(w, pid, Requested(None, 1));
    w := EnvReaches(w, start, Heartbeat(VIEWER, false), cfg);
    assert w.viewers == Presence.Viewers(map[], 1);
    w := EnvReaches(w, start, Heartbeat(VIEWER, true), cfg);
  }
}
