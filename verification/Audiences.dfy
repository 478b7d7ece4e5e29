/** The viewer map inside the protocol is the plain history of the calls the process
    received, so the gates of the protocol can be read off that history. */
module Audiences {
  import opened Common
  import opened Refresh
  import opened Protocol
  import opened ProtocolProofs
  import opened Activations
  import Presence
  import Runs = RefreshRuns

  /** The history of presence calls of a process after one more event; a crash begins anew. */
  function CallsAfter(h: seq<Presence.Timed>, w: World, e: Event): seq<Presence.Timed> {
    match e
    case Env(Heartbeat(session, active)) =>
      h + [Presence.Timed(w.mono, if active then Presence.Heartbeat(session) else Presence.Removal(session))]
    case Env(Crash(_, _)) => []
    case Request(_, Observe) => h + [Presence.Timed(w.mono, Presence.Count)]
    case Background(_, CheckViewers) => h + [Presence.Timed(w.mono, Presence.Count)]
    case _ => h
  }

  ghost function CallsDuring(h: seq<Presence.Timed>, w: World, events: seq<Event>, cfg: Config): seq<Presence.Timed>
    requires EnabledRun(w, events, cfg)
    decreases |events|
  {
    if events == [] then h
    else CallsDuring(CallsAfter(h, w, events[0]), Next(w, events[0], cfg), events[1..], cfg)
  }

  /** `w` is reached by a run whose last process received the presence calls `h`. */
  ghost predicate ReachedBy(w: World, h: seq<Presence.Timed>, start: Committed, cfg: Config) {
    exists mono: Instant, unix: int, events: seq<Event> ::
      && EnabledRun(Boot(start, mono, unix), events, cfg)
      && w == Exec(Boot(start, mono, unix), events, cfg)
      && h == CallsDuring([], Boot(start, mono, unix), events, cfg)
  }

  lemma {:induction false} ReachableHasHistory(w: World, start: Committed, cfg: Config)
    ensures Reachable(w, start, cfg) <==> exists h :: ReachedBy(w, h, start, cfg)
  {
    if Reachable(w, start, cfg) {
      var mono: Instant, unix: int, events: seq<Event> :|
        EnabledRun(Boot(start, mono, unix), events, cfg) && w == Exec(Boot(start, mono, unix), events, cfg);
      assert ReachedBy(w, CallsDuring([], Boot(start, mono, unix), events, cfg), start, cfg);
    }
  }

  // ---- The map follows the history -------------------------------------------------------

  ghost predicate Tracked(w: World, h: seq<Presence.Timed>, cfg: Config) {
    && Presence.Monotone(h)
    && (h == [] || h[|h| - 1].now <= w.mono)
    && w.viewers == Presence.AfterCalls(h, cfg.cap)
  }

  lemma {:induction false} TrackedCall(w: World, h: seq<Presence.Timed>, call: Presence.Call, cfg: Config)
    requires Tracked(w, h, cfg)
    ensures var h' := h + [Presence.Timed(w.mono, call)];
            && Presence.Monotone(h')
            && h'[|h'| - 1].now == w.mono
            && Presence.AfterCalls(h', cfg.cap)
               == Presence.AfterCall(w.viewers, Presence.Timed(w.mono, call), cfg.cap)
  {
    var h' := h + [Presence.Timed(w.mono, call)];
    assert h'[..|h'| - 1] == h;
  }

  lemma {:induction false} TrackedHeartbeat(w: World, h: seq<Presence.Timed>, session: Presence.Session,
                                            active: bool, cfg: Config)
    requires Tracked(w, h, cfg) && EnvEnabled(w, Heartbeat(session, active))
    ensures Tracked(EnvNext(w, Heartbeat(session, active), cfg),
                    CallsAfter(h, w, Env(Heartbeat(session, active))), cfg)
  {
    TrackedCall(w, h, if active then Presence.Heartbeat(session) else Presence.Removal(session), cfg);
  }

  lemma {:induction false} TrackedEnv(w: World, h: seq<Presence.Timed>, s: EnvStep, cfg: Config)
    requires Tracked(w, h, cfg) && EnvEnabled(w, s)
    ensures Tracked(EnvNext(w, s, cfg), CallsAfter(h, w, Env(s)), cfg)
  {
    match s
    case Heartbeat(session, active) => TrackedHeartbeat(w, h, session, active, cfg);
    case Tick(_) =>
    case WallClock(_) =>
    case Crash(_, _) =>
  }

  /** Handlers and tasks touch the map only where they count viewers. */
  lemma {:induction false} HandlerViewers(w: World, pid: nat, s: HandlerStep, cfg: Config)
    requires HandlerEnabled(w, pid, s)
    ensures var w' := HandlerNext(w, pid, s, cfg);
            w'.mono == w.mono && w'.viewers == if s.Observe? then Counted(w).viewers else w.viewers
  {
  }

  lemma {:induction false} TaskViewers(w: World, pid: nat, s: TaskStep, cfg: Config)
    requires TaskEnabled(w, pid, s)
    ensures var w' := TaskNext(w, pid, s, cfg);
            w'.mono == w.mono && w'.viewers == if s.CheckViewers? then Counted(w).viewers else w.viewers
  {
  }

  lemma {:induction false} TrackedCount(w: World, h: seq<Presence.Timed>, w': World, cfg: Config)
    requires Tracked(w, h, cfg) && w'.mono == w.mono && w'.viewers == Counted(w).viewers
    ensures Tracked(w', h + [Presence.Timed(w.mono, Presence.Count)], cfg)
  {
    TrackedCall(w, h, Presence.Count, cfg);
  }

  lemma {:induction false} TrackedHandler(w: World, h: seq<Presence.Timed>, pid: nat, s: HandlerStep,
                                          cfg: Config)
    requires Tracked(w, h, cfg) && HandlerEnabled(w, pid, s)
    ensures Tracked(HandlerNext(w, pid, s, cfg), CallsAfter(h, w, Request(pid, s)), cfg)
  {
    HandlerViewers(w, pid, s, cfg);
    if s.Observe? { TrackedCount(w, h, HandlerNext(w, pid, s, cfg), cfg); }
  }

  lemma {:induction false} TrackedTask(w: World, h: seq<Presence.Timed>, pid: nat, s: TaskStep, cfg: Config)
    requires Tracked(w, h, cfg) && TaskEnabled(w, pid, s)
    ensures Tracked(TaskNext(w, pid, s, cfg), CallsAfter(h, w, Background(pid, s)), cfg)
  {
    TaskViewers(w, pid, s, cfg);
    if s.CheckViewers? { TrackedCount(w, h, TaskNext(w, pid, s, cfg), cfg); }
  }

  lemma {:induction false} TrackedServer(w: World, h: seq<Presence.Timed>, s: ServerStep, cfg: Config)
    requires Tracked(w, h, cfg) && ServerEnabled(w, s)
    ensures Tracked(ServerNext(w, s), h, cfg)
  {
  }

  lemma {:induction false} TrackedNext(w: World, h: seq<Presence.Timed>, e: Event, cfg: Config)
    requires Tracked(w, h, cfg) && Enabled(w, e)
    ensures Tracked(Next(w, e, cfg), CallsAfter(h, w, e), cfg)
  {
    match e
    case Env(s) => TrackedEnv(w, h, s, cfg);
    case Request(pid, s) => TrackedHandler(w, h, pid, s, cfg);
    case Background(pid, s) => TrackedTask(w, h, pid, s, cfg);
    case Server(s) => TrackedServer(w, h, s, cfg);
  }

  lemma {:induction false} TrackedExec(w: World, h: seq<Presence.Timed>, events: seq<Event>, cfg: Config)
    requires Tracked(w, h, cfg) && EnabledRun(w, events, cfg)
    ensures Tracked(Exec(w, events, cfg), CallsDuring(h, w, events, cfg), cfg)
    decreases |events|
  {
    if events != [] {
      TrackedNext(w, h, events[0], cfg);
      TrackedExec(Next(w, events[0], cfg), CallsAfter(h, w, events[0]), events[1..], cfg);
    }
  }

  lemma {:induction false} ReachedTracked(w: World, h: seq<Presence.Timed>, start: Committed, cfg: Config)
    requires ReachedBy(w, h, start, cfg)
    ensures Tracked(w, h, cfg) && Reachable(w, start, cfg)
  {
    var mono: Instant, unix: int, events: seq<Event> :|
      && EnabledRun(Boot(start, mono, unix), events, cfg)
      && w == Exec(Boot(start, mono, unix), events, cfg)
      && h == CallsDuring([], Boot(start, mono, unix), events, cfg);
    TrackedExec(Boot(start, mono, unix), [], events, cfg);
  }

  /** In every reachable world the map, pruned now, holds the audience of the calls the
      process received, and the published generation is the number of their activations. */
  lemma {:induction false} ViewersFollowHistory(w: World, h: seq<Presence.Timed>, start: Committed,
                                                cfg: Config)
    requires ReachedBy(w, h, start, cfg)
    ensures Counted(w).viewers.seen.Keys == Presence.Audience(h, w.mono, cfg.cap)
    ensures w.viewers.generation == Presence.Activations(h, cfg.cap)
    ensures |w.viewers.seen| <= cfg.cap
  {
    ReachedTracked(w, h, start, cfg);
    Presence.MapRefinesHistory(h, w.mono, cfg.cap);
  }

  // ---- The gates, in terms of the history -----------------------------------------------------

  /** A request counts the audience of the history. */
  lemma {:induction false} ObservesAudience(w: World, h: seq<Presence.Timed>, start: Committed, cfg: Config,
                                            pid: nat)
    requires ReachedBy(w, h, start, cfg) && HandlerEnabled(w, pid, Observe)
    ensures var p := HandlerNext(w, pid, Observe, cfg).processes[pid];
            p.viewers == |Presence.Audience(h, w.mono, cfg.cap)| && p.unix == w.unix
  {
    ViewersFollowHistory(w, h, start, cfg);
    var seen := Counted(w).viewers.seen;
    assert |seen| == |seen.Keys|;
  }

  /** A task that reaches the viewer check starts its I/O exactly when the history has an audience. */
  lemma {:induction false} IoExactlyWithAudience(w: World, h: seq<Presence.Timed>, start: Committed,
                                                 cfg: Config, pid: nat)
    requires ReachedBy(w, h, start, cfg) && TaskEnabled(w, pid, CheckViewers)
    ensures var w' := TaskNext(w, pid, CheckViewers, cfg);
            && (pid in w'.processes && w'.processes[pid].Fetching? <==> Presence.Audience(h, w.mono, cfg.cap) != {})
            && (pid in w'.ioStarted <==> Presence.Audience(h, w.mono, cfg.cap) != {})
  {
    ViewersFollowHistory(w, h, start, cfg);
    ReachableInv(w, start, cfg);
    var seen := Counted(w).viewers.seen;
    assert seen == map[] <==> seen.Keys == {};
  }

  /** A plan misses the newest activation of the history exactly when that came after the
      request's load; otherwise it is full exactly while the newest activation is unserved. */
  lemma {:induction false} NewestActivationServed(w: World, h: seq<Presence.Timed>, start: Committed,
                                                  cfg: Config, pid: nat) returns (r: Runs.Run)
    requires ReachedBy(w, h, start, cfg) && Asking(w, pid) && Answered(w, pid).result.Ok?
    ensures Logged(w, r, cfg)
    ensures var loaded, newest, plan := w.processes[pid].generation, Presence.Activations(h, cfg.cap),
                                        Answered(w, pid).result.value;
            && loaded <= newest
            && (loaded == newest ==> (plan.full <==> newest > 0 && !Served(r, newest)))
            && (Misses(w, pid, newest) <==> w.scheduler.completedGeneration == loaded < newest)
  {
    ReachedTracked(w, h, start, cfg);
    ViewersFollowHistory(w, h, start, cfg);
    r := FullExactly(w, start, cfg, pid, Presence.Activations(h, cfg.cap));
  }
}
