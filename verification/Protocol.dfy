/** The price-refresh protocol as steps of one world: request handlers race for the refresh
    guard, read the stored state, pass the gates and hand the guard to a background task;
    the task rechecks, fetches, stores, completes and releases (src/handlers.rs,
    src/lifecycle.rs, src/state.rs). Every await point separates two steps, so steps of
    different handlers and tasks interleave freely. */
module Protocol {
  import opened Common
  import opened Providers
  import opened Errors
  import opened Pricing
  import opened Batches
  import opened Refresh
  import Presence
  import Runs = RefreshRuns

  /** The stored state, as one transaction leaves it. */
  datatype Committed = Committed(snapshot: Option<Snapshot>, health: map<string, LastAttempt>)

  type Scheduler = c: Coordinator | ValidCoordinator(c) witness FRESH

  datatype Config = Config(cap: nat, horizon: Instant)

  datatype Process =
    // A request handler. `owner` tells whether it holds the refresh guard.
    | Arrived
    | Entered(owner: bool)
    | HasRead(owner: bool, read: Option<Committed>)
    | Observed(owner: bool, read: Option<Committed>, viewers: nat, unix: int)
    | Admitted(snapshot: Option<Snapshot>)
    | Requested(snapshot: Option<Snapshot>, generation: nat)
    | Leaving(owner: bool)
    // A background task. It always holds the guard.
    | Dispatched(plan: Plan, snapshot: Option<Snapshot>)
    | Unstopped(plan: Plan, snapshot: Option<Snapshot>)
    | Fetching(plan: Plan, snapshot: Option<Snapshot>)
    | Storing(plan: Plan, results: seq<Fetched>, batch: Batch)
    | Stored(plan: Plan, failures: seq<ProviderError>)
    | Completed

  datatype Phase = Serving | Draining | HttpDrained | ReturnedOk | ReturnedErr

  datatype World = World(
    mono: Instant,
    unix: int,
    viewers: Presence.Viewers,
    stopping: bool,
    phase: Phase,
    guard: Option<nat>,
    processes: map<nat, Process>,
    nextPid: nat,
    scheduler: Scheduler,
    db: Committed,
    // History: the boot instant and scheduler events of this process, the batches committed
    // by all processes, and the tasks of this process that started I/O or tried to store.
    boot: Instant,
    log: seq<Runs.Event>,
    history: seq<seq<Fetched>>,
    ioStarted: set<nat>,
    ioStored: set<nat>)

  predicate Handler(p: Process) {
    p.Arrived? || p.Entered? || p.HasRead? || p.Observed? || p.Admitted? || p.Requested? || p.Leaving?
  }

  predicate Owns(p: Process) {
    match p
    case Arrived => false
    case Entered(owner) => owner
    case HasRead(owner, _) => owner
    case Observed(owner, _, _, _) => owner
    case Leaving(owner) => owner
    case _ => true
  }

  predicate InFlight(p: Process) {
    p.Fetching? || p.Storing?
  }

  // ---- Steps -------------------------------------------------------------------

  datatype EnvStep =
    | Tick(mono: Instant)
    | WallClock(unix: int)
    | Heartbeat(session: Presence.Session, active: bool)
    | Crash(mono: Instant, unix: int)

  datatype HandlerStep =
    | Arrive
    | TryLock
    | ReadStored(ok: bool)
    | Observe
    | Gate
    | LoadGeneration
    | CallBegin(child: nat)
    | Return
    | Cancel

  datatype TaskStep =
    | CheckStop
    | CheckViewers
    | FetchDone(results: seq<Fetched>)
    | Commit(ok: bool)
    | CallComplete
    | Publish

  datatype ServerStep = Shutdown | DrainHttp | DrainTimeout | FinalLock | LockTimeout

  datatype Event =
    | Env(env: EnvStep)
    | Request(pid: nat, handler: HandlerStep)
    | Background(pid: nat, task: TaskStep)
    | Server(server: ServerStep)

  function Put(w: World, pid: nat, p: Process): World {
    w.(processes := w.processes[pid := p])
  }

  /** The process ends; the guard is released if it was held. */
  function Ended(w: World, pid: nat): World
    requires pid in w.processes
  {
    w.(processes := w.processes - {pid},
       guard := if Owns(w.processes[pid]) then None else w.guard)
  }

  function Counted(w: World): World {
    w.(viewers := w.viewers.(seen := Presence.Prune(w.viewers.seen, w.mono)))
  }

  function Boot(start: Committed, mono: Instant, unix: int): World {
    World(mono, unix, Presence.Viewers(map[], 0), false, Serving, None, map[], 0, FRESH, start,
          mono, [], [], {}, {})
  }

  predicate EnvEnabled(w: World, e: EnvStep) {
    match e
    case Tick(mono) => mono >= w.mono
    case WallClock(_) => true
    case Heartbeat(_, _) => w.phase == Serving || w.phase == Draining
    case Crash(_, _) => true
  }

  function EnvNext(w: World, e: EnvStep, cfg: Config): World
    requires EnvEnabled(w, e)
  {
    match e
    case Tick(mono) => w.(mono := mono)
    case WallClock(unix) => w.(unix := unix)
    case Heartbeat(session, active) =>
      w.(viewers := Presence.AfterUpdate(w.viewers, session, active, w.mono, cfg.cap).viewers)
    case Crash(mono, unix) =>
      // Everything but the stored state is lost; startup preserves what a read returns.
      Boot(w.db, mono, unix).(history := w.history)
  }

  predicate HandlerEnabled(w: World, pid: nat, s: HandlerStep) {
    if s.Arrive? then pid >= w.nextPid && (w.phase == Serving || w.phase == Draining)
    else
      && pid in w.processes
      && var p := w.processes[pid];
         match s
         case TryLock => p.Arrived?
         case ReadStored(_) => p.Entered?
         case Observe => p.HasRead?
         case Gate => p.Observed?
         case LoadGeneration => p.Admitted?
         case CallBegin(child) => p.Requested? && child >= w.nextPid
         case Return => p.Leaving?
         case Cancel => Handler(p)
  }

  function AgeOf(snapshot: Option<Snapshot>, unix: int): Option<nat> {
    if snapshot.Some? then Presence.SnapshotAge(snapshot.value.fetchedAt, unix) else None
  }

  /** Whether the request may ask for a refresh: read, not stopping, gates passed, owner. */
  predicate PassesGates(w: World, p: Process)
    requires p.Observed?
  {
    && p.read.Some?
    && !w.stopping
    && !Presence.SkipsRefresh(p.viewers, AgeOf(p.read.value.snapshot, p.unix))
    && p.owner
  }

  function HandlerNext(w: World, pid: nat, s: HandlerStep, cfg: Config): World
    requires HandlerEnabled(w, pid, s)
  {
    match s
    case Arrive => Put(w, pid, Arrived).(nextPid := pid + 1)
    case TryLock =>
      if w.guard.None? then Put(w, pid, Entered(true)).(guard := Some(pid)) else Put(w, pid, Entered(false))
    case ReadStored(ok) =>
      Put(w, pid, HasRead(w.processes[pid].owner, if ok then Some(w.db) else None))
    case Observe =>
      var counted := Counted(w);
      Put(counted, pid, Observed(w.processes[pid].owner, w.processes[pid].read, |counted.viewers.seen|, w.unix))
    case Gate =>
      var p := w.processes[pid];
      if PassesGates(w, p) then Put(w, pid, Admitted(p.read.value.snapshot)) else Put(w, pid, Leaving(p.owner))
    case LoadGeneration =>
      Put(w, pid, Requested(w.processes[pid].snapshot, w.viewers.generation))
    case CallBegin(child) =>
      var p := w.processes[pid];
      var begun := AfterBegin(w.scheduler, w.mono, p.generation);
      var w' := Put(w, pid, Leaving(false)).(scheduler := begun.coordinator,
                                             log := w.log + [Runs.Begin(w.mono, p.generation)]);
      if begun.result.Ok?
      then Put(w', child, Dispatched(begun.result.value, p.snapshot)).(guard := Some(child), nextPid := child + 1)
      else w'.(guard := None)
    case Return => Ended(w, pid)
    case Cancel => Ended(w, pid)
  }

  predicate TaskEnabled(w: World, pid: nat, s: TaskStep) {
    && pid in w.processes
    && var p := w.processes[pid];
       match s
       case CheckStop => p.Dispatched?
       case CheckViewers => p.Unstopped?
       case FetchDone(results) => p.Fetching? && ResultsFor(p.plan.sources, results)
       case Commit(_) => p.Storing?
       case CallComplete => p.Stored?
       case Publish => p.Completed?
  }

  ghost function CommittedAfter(db: Committed, results: seq<Fetched>, batch: Batch): Committed {
    Committed(if batch.snapshot.Some? then batch.snapshot else db.snapshot, RecordAttempts(db.health, results))
  }

  ghost function TaskNext(w: World, pid: nat, s: TaskStep, cfg: Config): World
    requires TaskEnabled(w, pid, s)
  {
    var p := w.processes[pid];
    match s
    case CheckStop =>
      if w.stopping then Ended(w, pid) else Put(w, pid, Unstopped(p.plan, p.snapshot))
    case CheckViewers =>
      var counted := Counted(w);
      if counted.viewers.seen == map[] then Ended(counted, pid)
      else Put(counted, pid, Fetching(p.plan, p.snapshot)).(log := w.log + [Runs.Start(w.mono)],
                                                            ioStarted := w.ioStarted + {pid})
    case FetchDone(results) =>
      Put(w, pid, Storing(p.plan, results, BatchOf(p.snapshot, results, w.unix)))
    case Commit(ok) =>
      var w' := Put(w, pid, Stored(p.plan, p.batch.failures)).(ioStored := w.ioStored + {pid});
      if ok then w'.(db := CommittedAfter(w.db, p.results, p.batch), history := w.history + [p.results]) else w'
    case CallComplete =>
      Put(w, pid, Completed).(scheduler := AfterComplete(w.scheduler, p.plan, p.failures, w.mono, w.unix, cfg.horizon),
                              log := w.log + [Runs.Complete(w.mono, w.unix, p.failures)])
    case Publish => Ended(w, pid)
  }

  predicate NoHandlers(w: World) {
    forall pid :: pid in w.processes ==> !Handler(w.processes[pid])
  }

  predicate ServerEnabled(w: World, s: ServerStep) {
    match s
    case Shutdown => w.phase == Serving
    case DrainHttp => w.phase == Draining && NoHandlers(w)
    case DrainTimeout => w.phase == Draining
    case FinalLock => w.phase == HttpDrained && w.guard.None?
    case LockTimeout => w.phase == HttpDrained
  }

  function ServerNext(w: World, s: ServerStep): World
    requires ServerEnabled(w, s)
  {
    match s
    case Shutdown => w.(stopping := true, phase := Draining)
    case DrainHttp => w.(phase := HttpDrained)
    case DrainTimeout =>
      // Remaining connections are aborted, and with them their handlers.
      w.(phase := ReturnedErr,
         processes := map pid | pid in w.processes && !Handler(w.processes[pid]) :: w.processes[pid],
         guard := if w.guard.Some? && w.guard.value in w.processes && Handler(w.processes[w.guard.value])
                  then None else w.guard)
    case FinalLock => w.(phase := ReturnedOk)
    case LockTimeout => w.(phase := ReturnedErr)
  }

  predicate Enabled(w: World, e: Event) {
    match e
    case Env(s) => EnvEnabled(w, s)
    case Request(pid, s) => HandlerEnabled(w, pid, s)
    case Background(pid, s) => TaskEnabled(w, pid, s)
    case Server(s) => ServerEnabled(w, s)
  }

  ghost function Next(w: World, e: Event, cfg: Config): World
    requires Enabled(w, e)
  {
    match e
    case Env(s) => EnvNext(w, s, cfg)
    case Request(pid, s) => HandlerNext(w, pid, s, cfg)
    case Background(pid, s) => TaskNext(w, pid, s, cfg)
    case Server(s) => ServerNext(w, s)
  }

  ghost predicate EnabledRun(w: World, events: seq<Event>, cfg: Config)
    decreases |events|
  {
    events == [] || (Enabled(w, events[0]) && EnabledRun(Next(w, events[0], cfg), events[1..], cfg))
  }

  ghost function Exec(w: World, events: seq<Event>, cfg: Config): World
    requires EnabledRun(w, events, cfg)
    decreases |events|
  {
    if events == [] then w else Exec(Next(w, events[0], cfg), events[1..], cfg)
  }
}
