/** Invariants of the price-refresh protocol and what they mean for whole runs. */
module ProtocolProofs {
  import opened Common
  import opened Pricing
  import opened Batches
  import opened Refresh
  import opened Protocol
  import Presence
  import Runs = RefreshRuns

  // ---- Mutual exclusion --------------------------------------------------------

  /** The guard names its one holder. */
  ghost predicate Mutex(w: World) {
    && (forall pid :: pid in w.processes ==> pid < w.nextPid && (Owns(w.processes[pid]) ==> w.guard == Some(pid)))
    && (w.guard.Some? ==> w.guard.value in w.processes && Owns(w.processes[w.guard.value]))
  }

  lemma {:induction false} MutexEnv(w: World, s: EnvStep, cfg: Config)
    requires Mutex(w) && EnvEnabled(w, s)
    ensures Mutex(EnvNext(w, s, cfg))
  {
  }

  lemma {:induction false} MutexHandler(w: World, pid: nat, s: HandlerStep, cfg: Config)
    requires Mutex(w) && HandlerEnabled(w, pid, s)
    ensures Mutex(HandlerNext(w, pid, s, cfg))
  {
  }

  lemma {:induction false} MutexTask(w: World, pid: nat, s: TaskStep, cfg: Config)
    requires Mutex(w) && TaskEnabled(w, pid, s)
    ensures Mutex(TaskNext(w, pid, s, cfg))
  {
  }

  lemma {:induction false} MutexServer(w: World, s: ServerStep)
    requires Mutex(w) && ServerEnabled(w, s)
    ensures Mutex(ServerNext(w, s))
  {
  }

  // ---- The holder's view of the stored state ---------------------------------------

  /** What a guard holder captured is what is stored now. */
  ghost predicate Sees(p: Process, db: Committed) {
    match p
    case HasRead(_, read) => read.Some? ==> read.value == db
    case Observed(_, read, _, _) => read.Some? ==> read.value == db
    case Admitted(snapshot) => snapshot == db.snapshot
    case Requested(snapshot, _) => snapshot == db.snapshot
    case Dispatched(_, snapshot) => snapshot == db.snapshot
    case Unstopped(_, snapshot) => snapshot == db.snapshot
    case Fetching(_, snapshot) => snapshot == db.snapshot
    case Storing(plan, results, batch) =>
      ResultsFor(plan.sources, results) && exists unix :: batch == BatchOf(db.snapshot, results, unix)
    case _ => true
  }

  ghost predicate Current(w: World) {
    w.guard.Some? && w.guard.value in w.processes ==> Sees(w.processes[w.guard.value], w.db)
  }

  lemma {:induction false} CurrentEnv(w: World, s: EnvStep, cfg: Config)
    requires Mutex(w) && Current(w) && EnvEnabled(w, s)
    ensures Current(EnvNext(w, s, cfg))
  {
  }

  lemma {:induction false} CurrentHandler(w: World, pid: nat, s: HandlerStep, cfg: Config)
    requires Mutex(w) && Current(w) && HandlerEnabled(w, pid, s)
    ensures Current(HandlerNext(w, pid, s, cfg))
  {
  }

  lemma {:induction false} CurrentFetch(w: World, pid: nat, results: seq<Fetched>, cfg: Config)
    requires Mutex(w) && Current(w) && TaskEnabled(w, pid, FetchDone(results))
    ensures Current(TaskNext(w, pid, FetchDone(results), cfg))
  {
    var p := w.processes[pid];
    var batch := BatchOf(w.db.snapshot, results, w.unix);
    assert w.guard == Some(pid) && p.snapshot == w.db.snapshot;
    assert Sees(Storing(p.plan, results, batch), w.db);
  }

  lemma {:induction false} CurrentTask(w: World, pid: nat, s: TaskStep, cfg: Config)
    requires Mutex(w) && Current(w) && TaskEnabled(w, pid, s)
    ensures Current(TaskNext(w, pid, s, cfg))
  {
    assert w.guard == Some(pid);
    match s
    case CheckStop =>
    case CheckViewers =>
    case FetchDone(results) => CurrentFetch(w, pid, results, cfg);
    case Commit(ok) =>
      var p := w.processes[pid];
      assert Sees(Stored(p.plan, p.batch.failures), TaskNext(w, pid, s, cfg).db);
    case CallComplete =>
    case Publish =>
  }

  lemma {:induction false} CurrentServer(w: World, s: ServerStep)
    requires Mutex(w) && Current(w) && ServerEnabled(w, s)
    ensures Current(ServerNext(w, s))
  {
  }

  // ---- No lost update ------------------------------------------------------------------

  /** The stored state is the fold of the committed batches over the state at the start. */
  ghost predicate Folded(w: World, start: Committed) {
    && SourcesOf(w.db.snapshot) == FoldSources(SourcesOf(start.snapshot), w.history)
    && w.db.health == FoldHealth(start.health, w.history)
    && AllFetchedValid(w.history)
  }

  lemma {:induction false} FoldedCommit(db: Committed, start: Committed, history: seq<seq<Fetched>>,
                                        plan: Plan, results: seq<Fetched>, unix: int)
    requires SourcesOf(db.snapshot) == FoldSources(SourcesOf(start.snapshot), history)
    requires db.health == FoldHealth(start.health, history) && AllFetchedValid(history)
    requires ResultsFor(plan.sources, results)
    ensures var after := CommittedAfter(db, results, BatchOf(db.snapshot, results, unix));
            && SourcesOf(after.snapshot) == FoldSources(SourcesOf(start.snapshot), history + [results])
            && after.health == FoldHealth(start.health, history + [results])
            && AllFetchedValid(history + [results])
  {
    assert (history + [results])[..|history|] == history;
    FetchedQuotesValid(plan.sources, results);
  }

  lemma {:induction false} FoldedTask(w: World, start: Committed, pid: nat, s: TaskStep, cfg: Config)
    requires Mutex(w) && Current(w) && Folded(w, start) && TaskEnabled(w, pid, s) && s == Commit(true)
    ensures Folded(TaskNext(w, pid, s, cfg), start)
  {
    var p := w.processes[pid];
    var unix :| p.batch == BatchOf(w.db.snapshot, p.results, unix);
    FoldedCommit(w.db, start, w.history, p.plan, p.results, unix);
  }

  /** Nothing but a commit of a background task changes the stored state, not even a crash. */
  lemma {:induction false} OnlyCommitsWrite(w: World, e: Event, cfg: Config)
    requires Enabled(w, e) && !(e.Background? && e.task.Commit? && e.task.ok)
    ensures Next(w, e, cfg).db == w.db && Next(w, e, cfg).history == w.history
  {
  }

  lemma {:induction false} FoldedNext(w: World, start: Committed, e: Event, cfg: Config)
    requires Mutex(w) && Current(w) && Folded(w, start) && Enabled(w, e)
    ensures Folded(Next(w, e, cfg), start)
  {
    if e.Background? && e.task.Commit? && e.task.ok {
      FoldedTask(w, start, e.pid, e.task, cfg);
    } else {
      OnlyCommitsWrite(w, e, cfg);
    }
  }

  // ---- The scheduler inside the protocol ---------------------------------------------------

  /** The scheduler run this process has made so far. */
  ghost predicate Logged(w: World, r: Runs.Run, cfg: Config) {
    && Runs.LegalRun(Runs.Boot(w.boot), w.log, cfg.horizon)
    && r == Runs.After(Runs.Boot(w.boot), w.log, cfg.horizon)
  }

  /** The position of the guard holder matches the pending plan of the run. */
  predicate Follows(p: Process, r: Runs.Run, generation: nat) {
    match p
    case Requested(_, g) => r.seen <= g <= generation
    case Dispatched(plan, _) => Issued(r, plan)
    case Unstopped(plan, _) => Issued(r, plan)
    case Fetching(plan, _) => Started(r, plan)
    case Storing(plan, _, _) => Started(r, plan)
    case Stored(plan, _) => Started(r, plan)
    case _ => true
  }

  predicate Issued(r: Runs.Run, plan: Plan) {
    r.pending.Some? && r.pending.value.plan == plan && r.pending.value.started.None?
  }

  predicate Started(r: Runs.Run, plan: Plan) {
    r.pending.Some? && r.pending.value.plan == plan && r.pending.value.started.Some?
  }

  ghost predicate Scheduled(w: World, r: Runs.Run, cfg: Config) {
    && Logged(w, r, cfg)
    && r.coordinator == w.scheduler
    && r.clock <= w.mono
    && r.seen <= w.viewers.generation
    && (w.guard.Some? && w.guard.value in w.processes ==>
          Follows(w.processes[w.guard.value], r, w.viewers.generation))
  }

  lemma {:induction false} LoggedExtends(w: World, r: Runs.Run, e: Runs.Event, cfg: Config)
    requires Logged(w, r, cfg) && Runs.Shaped(r) && Runs.Legal(r, e)
    ensures Logged(w.(log := w.log + [e]), Runs.Step(r, e, cfg.horizon), cfg)
  {
    Runs.RunExtends(Runs.Boot(w.boot), w.log, e, cfg.horizon);
  }

  lemma {:induction false} ScheduledEnv(w: World, r: Runs.Run, s: EnvStep, cfg: Config) returns (r': Runs.Run)
    requires Mutex(w) && Scheduled(w, r, cfg) && EnvEnabled(w, s)
    ensures Scheduled(EnvNext(w, s, cfg), r', cfg)
  {
    r' := if s.Crash? then Runs.Boot(s.mono) else r;
  }

  lemma {:induction false} ScheduledHandler(w: World, r: Runs.Run, pid: nat, s: HandlerStep, cfg: Config)
    returns (r': Runs.Run)
    requires Mutex(w) && Scheduled(w, r, cfg) && HandlerEnabled(w, pid, s)
    ensures Scheduled(HandlerNext(w, pid, s, cfg), r', cfg)
  {
    r' := r;
    if s.CallBegin? {
      var e := Runs.Begin(w.mono, w.processes[pid].generation);
      LoggedExtends(w, r, e, cfg);
      r' := Runs.Step(r, e, cfg.horizon);
    }
  }

  /** The run goes on with the scheduler event a task causes. */
  lemma {:induction false} ScheduledStart(w: World, r: Runs.Run, pid: nat, cfg: Config) returns (r': Runs.Run)
    requires Mutex(w) && Scheduled(w, r, cfg) && TaskEnabled(w, pid, CheckViewers)
    ensures Scheduled(TaskNext(w, pid, CheckViewers, cfg), r', cfg)
  {
    r' := r;
    if Counted(w).viewers.seen != map[] {
      LoggedExtends(w, r, Runs.Start(w.mono), cfg);
      r' := Runs.Step(r, Runs.Start(w.mono), cfg.horizon);
    }
  }

  lemma {:induction false} ScheduledComplete(w: World, r: Runs.Run, pid: nat, cfg: Config) returns (r': Runs.Run)
    requires Mutex(w) && Scheduled(w, r, cfg) && TaskEnabled(w, pid, CallComplete)
    ensures Scheduled(TaskNext(w, pid, CallComplete, cfg), r', cfg)
  {
    var e := Runs.Complete(w.mono, w.unix, w.processes[pid].failures);
    LoggedExtends(w, r, e, cfg);
    r' := Runs.Step(r, e, cfg.horizon);
  }

  lemma {:induction false} ScheduledTask(w: World, r: Runs.Run, pid: nat, s: TaskStep, cfg: Config)
    returns (r': Runs.Run)
    requires Mutex(w) && Scheduled(w, r, cfg) && TaskEnabled(w, pid, s)
    ensures Scheduled(TaskNext(w, pid, s, cfg), r', cfg)
  {
    match s
    case CheckViewers => r' := ScheduledStart(w, r, pid, cfg);
    case CallComplete => r' := ScheduledComplete(w, r, pid, cfg);
    case _ => r' := r;
  }

  lemma {:induction false} ScheduledServer(w: World, r: Runs.Run, s: ServerStep, cfg: Config)
    requires Mutex(w) && Scheduled(w, r, cfg) && ServerEnabled(w, s)
    ensures Scheduled(ServerNext(w, s), r, cfg)
  {
  }

  // ---- Shutdown ----------------------------------------------------------------------------

  ghost predicate Drained(w: World) {
    && (w.stopping <==> w.phase != Serving)
    && (w.phase == HttpDrained || w.phase == ReturnedOk || w.phase == ReturnedErr ==> NoHandlers(w))
    && (w.phase == ReturnedOk ==> w.guard.None?)
  }

  predicate PastStart(p: Process) {
    InFlight(p) || p.Stored? || p.Completed?
  }

  /** Started I/O is in flight until its store attempt. */
  ghost predicate IoTracked(w: World) {
    && w.ioStored <= w.ioStarted
    && (forall pid :: pid in w.ioStarted ==> pid < w.nextPid)
    && (forall pid :: pid in w.ioStarted && pid in w.processes ==> PastStart(w.processes[pid]))
    && (forall pid :: pid in w.ioStarted && pid !in w.ioStored ==>
          pid in w.processes && InFlight(w.processes[pid]))
    && (forall pid :: pid in w.processes && InFlight(w.processes[pid]) ==> pid in w.ioStarted && pid !in w.ioStored)
  }

  lemma {:induction false} DrainedEnv(w: World, s: EnvStep, cfg: Config)
    requires Drained(w) && EnvEnabled(w, s)
    ensures Drained(EnvNext(w, s, cfg))
  {
  }

  lemma {:induction false} DrainedHandler(w: World, pid: nat, s: HandlerStep, cfg: Config)
    requires Drained(w) && HandlerEnabled(w, pid, s)
    ensures Drained(HandlerNext(w, pid, s, cfg))
  {
  }

  lemma {:induction false} DrainedTask(w: World, pid: nat, s: TaskStep, cfg: Config)
    requires Drained(w) && TaskEnabled(w, pid, s)
    ensures Drained(TaskNext(w, pid, s, cfg))
  {
  }

  lemma {:induction false} DrainedServer(w: World, s: ServerStep)
    requires Drained(w) && ServerEnabled(w, s)
    ensures Drained(ServerNext(w, s))
  {
  }

  lemma {:induction false} IoTrackedBegin(w: World, pid: nat, child: nat, cfg: Config)
    requires Mutex(w) && IoTracked(w) && HandlerEnabled(w, pid, CallBegin(child))
    ensures IoTracked(HandlerNext(w, pid, CallBegin(child), cfg))
  {
    assert pid !in w.ioStarted && child !in w.ioStarted;
  }

  lemma {:induction false} IoTrackedHandler(w: World, pid: nat, s: HandlerStep, cfg: Config)
    requires Mutex(w) && IoTracked(w) && HandlerEnabled(w, pid, s)
    ensures IoTracked(HandlerNext(w, pid, s, cfg))
  {
    assert pid !in w.ioStarted;
    if s.CallBegin? { IoTrackedBegin(w, pid, s.child, cfg); }
  }

  lemma {:induction false} IoTrackedStart(w: World, pid: nat, cfg: Config)
    requires Mutex(w) && IoTracked(w) && TaskEnabled(w, pid, CheckViewers)
    ensures IoTracked(TaskNext(w, pid, CheckViewers, cfg))
  {
    assert pid !in w.ioStarted;
  }

  lemma {:induction false} IoTrackedTask(w: World, pid: nat, s: TaskStep, cfg: Config)
    requires Mutex(w) && IoTracked(w) && TaskEnabled(w, pid, s)
    ensures IoTracked(TaskNext(w, pid, s, cfg))
  {
    if s.CheckViewers? { IoTrackedStart(w, pid, cfg); }
  }

  lemma {:induction false} IoTrackedServer(w: World, s: ServerStep)
    requires IoTracked(w) && ServerEnabled(w, s)
    ensures IoTracked(ServerNext(w, s))
  {
  }

  // ---- All invariants along every run --------------------------------------------------------

  ghost predicate Inv(w: World, start: Committed, cfg: Config) {
    && Mutex(w) && Current(w) && Folded(w, start) && Drained(w) && IoTracked(w)
    && exists r :: Scheduled(w, r, cfg)
  }

  lemma {:induction false} MutexNext(w: World, e: Event, cfg: Config)
    requires Mutex(w) && Enabled(w, e)
    ensures Mutex(Next(w, e, cfg))
  {
    match e
    case Env(s) => MutexEnv(w, s, cfg);
    case Request(pid, s) => MutexHandler(w, pid, s, cfg);
    case Background(pid, s) => MutexTask(w, pid, s, cfg);
    case Server(s) => MutexServer(w, s);
  }

  lemma {:induction false} DrainedNext(w: World, e: Event, cfg: Config)
    requires Drained(w) && Enabled(w, e)
    ensures Drained(Next(w, e, cfg))
  {
    match e
    case Env(s) => DrainedEnv(w, s, cfg);
    case Request(pid, s) => DrainedHandler(w, pid, s, cfg);
    case Background(pid, s) => DrainedTask(w, pid, s, cfg);
    case Server(s) => DrainedServer(w, s);
  }

  lemma {:induction false} InvNext(w: World, start: Committed, e: Event, cfg: Config)
    requires Inv(w, start, cfg) && Enabled(w, e)
    ensures Inv(Next(w, e, cfg), start, cfg)
  {
    MutexNext(w, e, cfg);
    DrainedNext(w, e, cfg);
    FoldedNext(w, start, e, cfg);
    var r :| Scheduled(w, r, cfg);
    match e
    case Env(s) =>
      CurrentEnv(w, s, cfg);
      r := ScheduledEnv(w, r, s, cfg);
    case Request(pid, s) =>
      CurrentHandler(w, pid, s, cfg);
      IoTrackedHandler(w, pid, s, cfg);
      r := ScheduledHandler(w, r, pid, s, cfg);
    case Background(pid, s) =>
      CurrentTask(w, pid, s, cfg);
      IoTrackedTask(w, pid, s, cfg);
      r := ScheduledTask(w, r, pid, s, cfg);
    case Server(s) =>
      CurrentServer(w, s);
      IoTrackedServer(w, s);
      ScheduledServer(w, r, s, cfg);
  }

  lemma {:induction false} ExecKeepsInv(w: World, start: Committed, events: seq<Event>, cfg: Config)
    requires Inv(w, start, cfg) && EnabledRun(w, events, cfg)
    ensures Inv(Exec(w, events, cfg), start, cfg)
    decreases |events|
  {
    if events != [] {
      InvNext(w, start, events[0], cfg);
      ExecKeepsInv(Next(w, events[0], cfg), start, events[1..], cfg);
    }
  }

  /** The worlds of all runs that begin with the stored state `start`. */
  ghost predicate Reachable(w: World, start: Committed, cfg: Config) {
    exists mono: Instant, unix: int, events: seq<Event> ::
      EnabledRun(Boot(start, mono, unix), events, cfg) && w == Exec(Boot(start, mono, unix), events, cfg)
  }

  lemma {:induction false} ReachableInv(w: World, start: Committed, cfg: Config)
    requires Reachable(w, start, cfg)
    ensures Inv(w, start, cfg)
  {
    var mono: Instant, unix: int, events: seq<Event> :|
      EnabledRun(Boot(start, mono, unix), events, cfg) && w == Exec(Boot(start, mono, unix), events, cfg);
    var boot := Boot(start, mono, unix);
    assert Scheduled(boot, Runs.Boot(mono), cfg);
    ExecKeepsInv(boot, start, events, cfg);
  }

  lemma {:induction false} ExecExtends(w: World, events: seq<Event>, e: Event, cfg: Config)
    requires EnabledRun(w, events, cfg) && Enabled(Exec(w, events, cfg), e)
    ensures EnabledRun(w, events + [e], cfg)
    ensures Exec(w, events + [e], cfg) == Next(Exec(w, events, cfg), e, cfg)
    decreases |events|
  {
    if events == [] {
      assert [e][1..] == [];
    } else {
      ExecExtends(Next(w, events[0], cfg), events[1..], e, cfg);
      assert (events + [e])[1..] == events[1..] + [e];
    }
  }

  lemma {:induction false} ReachableNext(w: World, start: Committed, e: Event, cfg: Config)
    requires Reachable(w, start, cfg) && Enabled(w, e)
    ensures Reachable(Next(w, e, cfg), start, cfg)
  {
    var mono: Instant, unix: int, events: seq<Event> :|
      EnabledRun(Boot(start, mono, unix), events, cfg) && w == Exec(Boot(start, mono, unix), events, cfg);
    ExecExtends(Boot(start, mono, unix), events, e, cfg);
  }

  lemma {:induction false} ReachableExec(w: World, start: Committed, events: seq<Event>, cfg: Config)
    requires Reachable(w, start, cfg) && EnabledRun(w, events, cfg)
    ensures Reachable(Exec(w, events, cfg), start, cfg)
    decreases |events|
  {
    if events != [] {
      ReachableNext(w, start, events[0], cfg);
      ReachableExec(Next(w, events[0], cfg), start, events[1..], cfg);
    }
  }

  // ---- What the invariants mean -----------------------------------------------------------------

  /** No lost update: in every interleaving of readers, refreshes, failed writes, early
      returns, cancellations and restarts, the stored quotes are the merges of the committed
      batches in commit order, and the health records their latest attempts. */
  lemma {:induction false} NoLostUpdate(w: World, start: Committed, cfg: Config)
    requires Reachable(w, start, cfg)
    ensures SourcesOf(w.db.snapshot) == FoldSources(SourcesOf(start.snapshot), w.history)
    ensures w.db.health == FoldHealth(start.health, w.history)
  {
    ReachableInv(w, start, cfg);
  }

  /** Provenance: a source with a committed fetch is stored with its latest one and nothing
      else; another source keeps what the start held, and once anything is committed the
      last valid quote of it. */
  lemma {:induction false} QuoteProvenance(w: World, start: Committed, cfg: Config, q: Quote)
    requires Reachable(w, start, cfg)
    ensures var first, committed := SourcesOf(start.snapshot), AllQuotes(w.history);
            q in SourcesOf(w.db.snapshot)
            <==> if committed == [] then q in first
                 else if LastOf(committed, q.source).Some? then LastOf(committed, q.source) == Some(q)
                 else LastOf(Valids(first), q.source) == Some(q)
  {
    ReachableInv(w, start, cfg);
    var first, history := SourcesOf(start.snapshot), w.history;
    FoldIsOneMerge(first, history);
    if AllQuotes(history) != [] {
      LastOfOrdered(Merge(first, AllQuotes(history)), q);
    }
  }

  /** At most one request or task holds the guard, so at most one refresh is in flight. */
  lemma {:induction false} SingleFlight(w: World, start: Committed, cfg: Config, a: nat, b: nat)
    requires Reachable(w, start, cfg)
    requires a in w.processes && b in w.processes && Owns(w.processes[a]) && Owns(w.processes[b])
    ensures a == b && w.guard == Some(a)
  {
    ReachableInv(w, start, cfg);
  }

  /** The scheduler inside every world is that of a legal scheduler run, so the theorems on
      cadence, backoff, fairness and activation hold in every interleaving. */
  lemma {:induction false} SchedulerRunsAreLegal(w: World, start: Committed, cfg: Config) returns (r: Runs.Run)
    requires Reachable(w, start, cfg)
    ensures Runs.Reachable(r, cfg.horizon) && r.coordinator == w.scheduler
    ensures Logged(w, r, cfg) && r.clock <= w.mono && r.seen <= w.viewers.generation
  {
    ReachableInv(w, start, cfg);
    r :| Scheduled(w, r, cfg);
  }

  /** A handler is admitted exactly when it holds the guard, read the state, sees no shutdown,
      counted a viewer, and the state stored now, not just the one it read, has no snapshot
      younger than ten seconds at the time it observed. */
  lemma {:induction false} AdmissionMeaning(w: World, start: Committed, cfg: Config, pid: nat)
    requires Reachable(w, start, cfg) && pid in w.processes && w.processes[pid].Observed?
    ensures var p := w.processes[pid];
            HandlerNext(w, pid, Gate, cfg).processes[pid].Admitted?
            <==> && w.guard == Some(pid) && p.read.Some? && !w.stopping && p.viewers > 0
                 && (w.db.snapshot.Some? ==>
                       !(0 <= p.unix - w.db.snapshot.value.fetchedAt < 10))
  {
    ReachableInv(w, start, cfg);
  }

  /** Nothing is assumed about the order of events: in every world the clocks may move, the
      process may crash and, until the front end has drained, requests and heartbeats may
      arrive; every request may be cancelled or take its next step, and every task may take
      its next step, with any outcome. */
  lemma {:induction false} AnyoneMayMove(w: World, pid: nat, mono: Instant, unix: int, ok: bool,
                                         session: Presence.Session, results: seq<Fetched>)
    ensures Enabled(w, Env(Crash(mono, unix))) && Enabled(w, Env(WallClock(unix)))
    ensures mono >= w.mono ==> Enabled(w, Env(Tick(mono)))
    ensures w.phase == Serving || w.phase == Draining ==>
              && Enabled(w, Env(Heartbeat(session, ok)))
              && (pid >= w.nextPid ==> Enabled(w, Request(pid, Arrive)))
    ensures pid in w.processes ==>
              match w.processes[pid]
              case Arrived => Enabled(w, Request(pid, TryLock)) && Enabled(w, Request(pid, Cancel))
              case Entered(_) => Enabled(w, Request(pid, ReadStored(ok))) && Enabled(w, Request(pid, Cancel))
              case HasRead(_, _) => Enabled(w, Request(pid, Observe)) && Enabled(w, Request(pid, Cancel))
              case Observed(_, _, _, _) => Enabled(w, Request(pid, Gate)) && Enabled(w, Request(pid, Cancel))
              case Admitted(_) => Enabled(w, Request(pid, LoadGeneration)) && Enabled(w, Request(pid, Cancel))
              case Requested(_, _) =>
                Enabled(w, Request(pid, CallBegin(w.nextPid))) && Enabled(w, Request(pid, Cancel))
              case Leaving(_) => Enabled(w, Request(pid, Return)) && Enabled(w, Request(pid, Cancel))
              case Dispatched(_, _) => Enabled(w, Background(pid, CheckStop))
              case Unstopped(_, _) => Enabled(w, Background(pid, CheckViewers))
              case Fetching(plan, _) =>
                ResultsFor(plan.sources, results) ==> Enabled(w, Background(pid, FetchDone(results)))
              case Storing(_, _, _) => Enabled(w, Background(pid, Commit(ok)))
              case Stored(_, _) => Enabled(w, Background(pid, CallComplete))
              case Completed => Enabled(w, Background(pid, Publish))
    ensures w.phase == Serving ==> Enabled(w, Server(Shutdown))
    ensures w.phase == Draining ==>
              Enabled(w, Server(DrainTimeout)) && (NoHandlers(w) ==> Enabled(w, Server(DrainHttp)))
    ensures w.phase == HttpDrained ==>
              Enabled(w, Server(LockTimeout)) && (w.guard.None? ==> Enabled(w, Server(FinalLock)))
  {
  }

  /** Whoever ends, the guard is free if and only if it was free or the one that ended held it;
      nothing else changes. */
  lemma {:induction false} EndingReleases(w: World, start: Committed, pid: nat, e: Event, cfg: Config)
    requires Reachable(w, start, cfg) && Enabled(w, e)
    requires e == Request(pid, Return) || e == Request(pid, Cancel) || e == Background(pid, Publish)
    ensures var w' := Next(w, e, cfg);
            && pid !in w'.processes
            && (forall other :: other in w'.processes <==> other in w.processes && other != pid)
            && w'.guard == (if w.guard == Some(pid) then None else w.guard)
            && w'.scheduler == w.scheduler && w'.db == w.db && w'.viewers == w.viewers && w'.log == w.log
  {
    ReachableInv(w, start, cfg);
  }

  /** A request takes the guard exactly when it is free and never waits; what it reads is the
      one state stored at that moment, or nothing. */
  lemma {:induction false} LockAndRead(w: World, pid: nat, ok: bool, cfg: Config)
    ensures HandlerEnabled(w, pid, TryLock) ==>
              var w' := HandlerNext(w, pid, TryLock, cfg);
              && w'.processes[pid] == Entered(w.guard.None?)
              && w'.guard == if w.guard.None? then Some(pid) else w.guard
    ensures HandlerEnabled(w, pid, ReadStored(ok)) ==>
              var p := HandlerNext(w, pid, ReadStored(ok), cfg).processes[pid];
              && p.owner == w.processes[pid].owner
              && (if ok then p.read == Some(w.db) else p.read.None?)
  {
  }

  /** Asking for a plan either hands the guard, the plan and the snapshot stored now to one new
      task, or gives the guard back; the request itself goes on without it. */
  lemma {:induction false} BeginHandsOver(w: World, start: Committed, pid: nat, child: nat, cfg: Config)
    requires Reachable(w, start, cfg) && HandlerEnabled(w, pid, CallBegin(child))
    ensures var w', begun := HandlerNext(w, pid, CallBegin(child), cfg),
                             AfterBegin(w.scheduler, w.mono, w.processes[pid].generation);
            && w'.processes[pid] == Leaving(false)
            && w'.scheduler == begun.coordinator
            && (begun.result.Ok? ==>
                  && w'.guard == Some(child) && w'.processes.Keys == w.processes.Keys + {child}
                  && w'.processes[child] == Dispatched(begun.result.value, w.db.snapshot))
            && (begun.result.Err? ==> w'.guard.None? && w'.processes.Keys == w.processes.Keys)
  {
    ReachableInv(w, start, cfg);
  }

  /** A dispatched task goes on to the viewer check exactly when the server is not stopping;
      otherwise it ends and frees the guard without I/O. */
  lemma {:induction false} StopsExactly(w: World, start: Committed, pid: nat, cfg: Config)
    requires Reachable(w, start, cfg) && TaskEnabled(w, pid, CheckStop)
    ensures var w', p := TaskNext(w, pid, CheckStop, cfg), w.processes[pid];
            && w'.ioStarted == w.ioStarted
            && (!w.stopping ==> pid in w'.processes && w'.processes[pid] == Unstopped(p.plan, p.snapshot))
            && (w.stopping ==> pid !in w'.processes && w'.guard.None?)
  {
    ReachableInv(w, start, cfg);
  }

  lemma {:induction false} OnlyTasksStartIo(w: World, e: Event, cfg: Config)
    requires Enabled(w, e) && !(e.Background? && e.task.CheckViewers?) && !(e.Env? && e.env.Crash?)
    ensures Next(w, e, cfg).ioStarted == w.ioStarted
  {
  }

  /** Providers are contacted only by the holder of the guard, and only while someone views. */
  lemma {:induction false} IoNeedsViewers(w: World, start: Committed, e: Event, cfg: Config)
    returns (pid: nat, session: Presence.Session)
    requires Reachable(w, start, cfg) && Enabled(w, e) && !(e.Env? && e.env.Crash?)
    requires Next(w, e, cfg).ioStarted != w.ioStarted
    ensures Next(w, e, cfg).ioStarted == w.ioStarted + {pid} && w.guard == Some(pid)
    ensures session in w.viewers.seen && Presence.Alive(w.viewers.seen[session], w.mono)
  {
    ReachableInv(w, start, cfg);
    assert e.Background? && e.task.CheckViewers? by {
      if !(e.Background? && e.task.CheckViewers?) { OnlyTasksStartIo(w, e, cfg); }
    }
    pid := e.pid;
    assert Next(w, e, cfg) == TaskNext(w, pid, CheckViewers, cfg);
    session :| session in Presence.Prune(w.viewers.seen, w.mono);
  }

  predicate NoCrash(events: seq<Event>) {
    forall e :: e in events ==> !(e.Env? && e.env.Crash?)
  }

  // ---- Clean drain -----------------------------------------------------------------------------------

  /** When the server has returned normally nothing runs, nothing holds the guard, and every
      refresh that started I/O has made its store attempt. */
  lemma {:induction false} CleanDrain(w: World, start: Committed, cfg: Config)
    requires Reachable(w, start, cfg) && w.phase == ReturnedOk
    ensures w.guard.None? && w.processes == map[] && w.ioStarted == w.ioStored && w.stopping
  {
    ReachableInv(w, start, cfg);
    EmptyWhenFree(w);
  }

  /** Background tasks always hold the guard. */
  lemma {:induction false} EmptyWhenFree(w: World)
    requires Mutex(w) && NoHandlers(w) && w.guard.None?
    ensures w.processes == map[]
  {
    assert forall p: Process :: Handler(p) || Owns(p);
  }

  /** Tasks of this process that may still pass from the stop flag check to their I/O. */
  ghost predicate IoConfined(w: World, allowed: set<nat>) {
    && w.stopping
    && w.ioStarted <= allowed
    && forall pid :: pid in w.processes && w.processes[pid].Unstopped? ==> pid in allowed
  }

  lemma {:induction false} IoConfinedNext(w: World, e: Event, allowed: set<nat>, cfg: Config)
    requires IoConfined(w, allowed) && Enabled(w, e) && !(e.Env? && e.env.Crash?)
    ensures IoConfined(Next(w, e, cfg), allowed)
  {
  }

  /** Once shutdown has begun, I/O starts only in a task that had already found the stop flag
      clear: no handler and no task still waiting for that check can start any. */
  lemma {:induction false} NoNewIoAfterShutdown(w: World, events: seq<Event>, allowed: set<nat>, cfg: Config)
    requires IoConfined(w, allowed) && EnabledRun(w, events, cfg) && NoCrash(events)
    ensures Exec(w, events, cfg).ioStarted <= allowed
    decreases |events|
  {
    if events != [] {
      assert events[0] in events;
      assert forall e :: e in events[1..] ==> e in events;
      IoConfinedNext(w, events[0], allowed, cfg);
      NoNewIoAfterShutdown(Next(w, events[0], cfg), events[1..], allowed, cfg);
    }
  }

  /** ... and it stays that way: no dispatch and no write happens afterwards in this process. */
  lemma {:induction false} NothingAfterReturn(w: World, events: seq<Event>, cfg: Config)
    requires w.phase == ReturnedOk && w.processes == map[] && w.guard.None?
    requires EnabledRun(w, events, cfg) && NoCrash(events)
    ensures var w' := Exec(w, events, cfg);
            && w'.phase == ReturnedOk && w'.processes == map[] && w'.guard.None?
            && w'.db == w.db && w'.history == w.history && w'.log == w.log && w'.ioStarted == w.ioStarted
    decreases |events|
  {
    if events != [] {
      assert events[0] in events;
      assert forall e :: e in events[1..] ==> e in events;
      NothingAfterReturn(Next(w, events[0], cfg), events[1..], cfg);
    }
  }
}
