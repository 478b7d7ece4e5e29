/** Whole runs of the refresh scheduler in one process. A run is any legal list of
    events: attempts to begin, the start of provider I/O for the pending plan, and
    its completion. A pending plan may also be abandoned: the next `Begin` replaces it. */
module RefreshRuns {
  import opened Common
  import opened Providers
  import opened Errors
  import opened Refresh

  datatype Event =
    | Begin(now: Instant, generation: nat)
    | Start(now: Instant)
    | Complete(now: Instant, nowUnix: int, failures: seq<ProviderError>)

  /** A finished fetch of one provider: when its plan was issued, when its I/O started and
      when it completed; after a failure, `retryAt` is the earliest retry its hint allows, or
      the start when it carries no usable hint. */
  datatype Fetch = Fetch(issued: Instant, start: Instant, end: Instant, failed: bool, retryAt: Instant)

  /** The plan that owns the scheduler, when it was issued, and when its I/O started. */
  datatype Pending = Pending(plan: Plan, issued: Instant, started: Option<Instant>)

  /** `fetches[i]` is the history of provider ALL[i]; `issued` the instants of the
      successful `Begin`s with their plans; `acknowledged` the completed full plans;
      `seen` the generation of the latest attempt to begin. */
  datatype Run = Run(
    coordinator: Coordinator,
    pending: Option<Pending>,
    clock: Instant,
    seen: nat,
    issued: seq<(Instant, Plan)>,
    fetches: seq<seq<Fetch>>,
    acknowledged: seq<Plan>)

  function Boot(now: Instant): Run {
    Run(FRESH, None, now, 0, [], [[], [], [], []], [])
  }

  /** Event instants follow the monotonic clock, generations never go back, and
      only a pending plan starts or completes. */
  predicate Legal(r: Run, e: Event) {
    && e.now >= r.clock
    && match e
       case Begin(_, generation) => generation >= r.seen
       case Start(_) => r.pending.Some? && r.pending.value.started.None?
       case Complete(_, _, _) => r.pending.Some? && r.pending.value.started.Some?
  }

  predicate Shaped(r: Run) {
    && ValidCoordinator(r.coordinator)
    && |r.fetches| == COUNT
  }

  /** The instant a failure asks to wait for, if it can be represented. */
  function RetryAt(error: Option<ProviderError>, start: Instant, now: Instant, nowUnix: int, horizon: Instant)
    : Instant
  {
    if error.Some? && HintSeconds(error.value.kind, nowUnix).Some?
       && now + HintSeconds(error.value.kind, nowUnix).value as real <= horizon
    then now + HintSeconds(error.value.kind, nowUnix).value as real
    else start
  }

  function FetchOf(issued: Instant, start: Instant, error: Option<ProviderError>, now: Instant, nowUnix: int,
                   horizon: Instant): Fetch {
    Fetch(issued, start, now, error.Some?, RetryAt(error, start, now, nowUnix, horizon))
  }

  function Recorded(r: Run, failures: seq<ProviderError>, now: Instant, nowUnix: int, horizon: Instant)
    : (f: seq<seq<Fetch>>)
    requires Shaped(r) && r.pending.Some? && r.pending.value.started.Some?
    ensures |f| == COUNT
  {
    seq(COUNT, i requires 0 <= i < COUNT =>
      if ALL[i] in r.pending.value.plan.sources
      then r.fetches[i] + [FetchOf(r.pending.value.issued, r.pending.value.started.value,
                                   FailureOf(failures, ALL[i]), now, nowUnix, horizon)]
      else r.fetches[i])
  }

  function Step(r: Run, e: Event, horizon: Instant): (r': Run)
    requires Shaped(r) && Legal(r, e)
    ensures Shaped(r') && r'.clock == e.now
  {
    match e
    case Begin(now, generation) =>
      var begun := AfterBegin(r.coordinator, now, generation);
      if begun.result.Err? then r.(clock := now, seen := generation, pending := None)
      else r.(coordinator := begun.coordinator, pending := Some(Pending(begun.result.value, now, None)),
              clock := now, seen := generation, issued := r.issued + [(now, begun.result.value)])
    case Start(now) =>
      r.(pending := Some(r.pending.value.(started := Some(now))), clock := now)
    case Complete(now, nowUnix, failures) =>
      var plan := r.pending.value.plan;
      r.(coordinator := AfterComplete(r.coordinator, plan, failures, now, nowUnix, horizon),
         pending := None,
         clock := now,
         fetches := Recorded(r, failures, now, nowUnix, horizon),
         acknowledged := if plan.full then r.acknowledged + [plan] else r.acknowledged)
  }

  /** Every event is legal where it happens. */
  predicate LegalRun(r: Run, events: seq<Event>, horizon: Instant)
    requires Shaped(r)
    decreases |events|
  {
    events == [] || (Legal(r, events[0]) && LegalRun(Step(r, events[0], horizon), events[1..], horizon))
  }

  function After(r: Run, events: seq<Event>, horizon: Instant): (r': Run)
    requires Shaped(r) && LegalRun(r, events, horizon)
    ensures Shaped(r')
    decreases |events|
  {
    if events == [] then r else After(Step(r, events[0], horizon), events[1..], horizon)
  }

  /** A legal event extends a run. */
  lemma {:induction false} RunExtends(r: Run, events: seq<Event>, e: Event, horizon: Instant)
    requires Shaped(r) && LegalRun(r, events, horizon) && Legal(After(r, events, horizon), e)
    ensures LegalRun(r, events + [e], horizon)
    ensures After(r, events + [e], horizon) == Step(After(r, events, horizon), e, horizon)
    decreases |events|
  {
    if events == [] {
      assert [e][1..] == [];
    } else {
      RunExtends(Step(r, events[0], horizon), events[1..], e, horizon);
      assert (events + [e])[1..] == events[1..] + [e];
    }
  }

  // ---- The inductive invariant ---------------------------------------------

  /** Failures in a row at the end of a fetch history. */
  function Trailing(f: seq<Fetch>): (n: nat)
    ensures n <= |f|
    ensures n > 0 <==> f != [] && f[|f| - 1].failed
  {
    if f == [] || !f[|f| - 1].failed then 0 else 1 + Trailing(f[..|f| - 1])
  }

  /** Earliest next fetch the history allows. */
  predicate Allows(f: seq<Fetch>, at: Instant) {
    Trailing(f) > 0 ==>
      at >= f[|f| - 1].end + Backoff(Trailing(f)) as real && at >= f[|f| - 1].retryAt
  }

  /** Consecutive fetches of one provider respect the backoff of the failures before them. */
  ghost predicate Spaced(f: seq<Fetch>) {
    && (forall k :: 0 <= k < |f| ==> f[k].start <= f[k].end)
    && (forall k :: 0 < k < |f| ==> AllowedAt(f, k))
  }

  predicate AllowedAt(f: seq<Fetch>, k: nat)
    requires k < |f|
  {
    Allows(f[..k], f[k].start)
  }

  ghost predicate BackoffInv(r: Run)
    requires Shaped(r)
  {
    forall i :: 0 <= i < COUNT ==>
      && Spaced(r.fetches[i])
      && r.coordinator.failures[i] == Min(Trailing(r.fetches[i]), FAILURE_CAP)
      && (Trailing(r.fetches[i]) > 0 ==>
            r.coordinator.nextEligible[i].Some? && Allows(r.fetches[i], r.coordinator.nextEligible[i].value))
      && (r.pending.Some? && ALL[i] in r.pending.value.plan.sources ==>
            && Allows(r.fetches[i], r.clock)
            && (r.pending.value.started.Some? ==> Allows(r.fetches[i], r.pending.value.started.value)))
  }

  ghost predicate CadenceInv(r: Run) {
    && (forall k :: 0 < k < |r.issued| ==> r.issued[k].0 >= r.issued[k - 1].0 + REFRESH_INTERVAL)
    && r.coordinator.lastAttempt == (if r.issued == [] then None else Some(r.issued[|r.issued| - 1].0))
    && (r.coordinator.lastAttempt.Some? ==> r.coordinator.lastAttempt.value <= r.clock)
    && (r.pending.Some? && r.pending.value.started.Some? ==> r.pending.value.started.value <= r.clock)
  }

  ghost predicate GenerationInv(r: Run) {
    && r.coordinator.completedGeneration <= r.seen
    && r.coordinator.completedGeneration
       == (if r.acknowledged == [] then 0 else r.acknowledged[|r.acknowledged| - 1].generation)
    && (forall k :: 0 < k < |r.acknowledged| ==> r.acknowledged[k - 1].generation <= r.acknowledged[k].generation)
    && (r.pending.Some? ==> r.coordinator.completedGeneration <= r.pending.value.plan.generation <= r.seen)
  }

  /** The last instant at which a plan with `p` was issued. */
  function LastIssue(issued: seq<(Instant, Plan)>, p: Provider): Option<Instant> {
    if issued == [] then None
    else
      var (at, plan) := issued[|issued| - 1];
      if p in plan.sources then Some(at) else LastIssue(issued[..|issued| - 1], p)
  }

  /** What the history says about the earliest next dispatch of a provider whose last plan
      was issued at `last`: ten seconds after that or, once that fetch has failed, when the
      backoff after the failures in a row has passed and the instant it asked for has come. */
  predicate Due(last: Option<Instant>, f: seq<Fetch>, at: Instant) {
    last.Some? ==>
      if f != [] && f[|f| - 1].issued == last.value && f[|f| - 1].failed
      then at >= f[|f| - 1].end + Backoff(Trailing(f)) as real && at >= f[|f| - 1].retryAt
      else at >= last.value + 10.0
  }

  predicate Ready(r: Run, p: Provider, at: Instant)
    requires Shaped(r)
  {
    Due(LastIssue(r.issued, p), r.fetches[Index(p)], at)
  }

  ghost predicate Matches(deadline: Option<Instant>, last: Option<Instant>, f: seq<Fetch>) {
    forall at: Instant :: Cooled(deadline, at) <==> Due(last, f, at)
  }

  ghost predicate ReadyInv(r: Run)
    requires Shaped(r)
  {
    forall p :: ReadyInvOf(r, p)
  }

  /** Eligibility follows the history, and a pending fetch is not among the finished ones. */
  ghost predicate ReadyInvOf(r: Run, p: Provider)
    requires Shaped(r)
  {
    var f := r.fetches[Index(p)];
    && Matches(r.coordinator.nextEligible[Index(p)], LastIssue(r.issued, p), f)
    && (f != [] ==> r.coordinator.lastAttempt.Some? && f[|f| - 1].issued <= r.coordinator.lastAttempt.value)
    && (r.pending.Some? && p in r.pending.value.plan.sources ==>
          && LastIssue(r.issued, p) == Some(r.pending.value.issued)
          && (f != [] ==> f[|f| - 1].issued < r.pending.value.issued))
  }

  /** The rotation stands behind the last provider of the last plan, and plans are in order. */
  ghost predicate TurnInv(r: Run)
    requires Shaped(r)
  {
    && (r.pending.Some? ==>
          && r.issued != [] && r.issued[|r.issued| - 1] == (r.pending.value.issued, r.pending.value.plan))
    && TurnAfter(r.issued, r.coordinator.nextSource)
  }

  ghost predicate TurnAfter(issued: seq<(Instant, Plan)>, next: nat) {
    && (forall k :: 0 <= k < |issued| ==> WellShaped(issued[k].1))
    && next == if issued == [] then 0 else (Index(LastProvider(issued[|issued| - 1].1)) + 1) % COUNT
  }

  predicate WellShaped(plan: Plan) {
    plan.sources != [] && InOrder(plan.sources)
  }

  function LastProvider(plan: Plan): Provider {
    if plan.sources == [] then CoinGecko else plan.sources[|plan.sources| - 1]
  }

  ghost predicate Inv(r: Run) {
    Shaped(r) && BackoffInv(r) && CadenceInv(r) && GenerationInv(r) && ReadyInv(r) && TurnInv(r)
  }

  lemma {:induction false} Pow2Grows(m: nat, n: nat)
    requires m <= n
    ensures Pow2(m) <= Pow2(n)
  {
    if m < n { Pow2Grows(m, n - 1); }
  }

  lemma {:induction false} BackoffGrows(m: nat, n: nat)
    requires 1 <= m <= n
    ensures Backoff(m) <= Backoff(n)
  {
    Pow2Grows(m - 1, n - 1);
  }

  /** Stopping the counter at six loses nothing against counting on. */
  lemma {:induction false} CapLosesNothing(n: nat)
    requires n >= 1
    ensures Backoff(Min(n, FAILURE_CAP)) == Backoff(n)
  {
    assert Pow2(5) == 32;
    if n > FAILURE_CAP { Pow2Grows(5, n - 1); }
  }

  lemma {:induction false} BackoffKept(r: Run, e: Event, horizon: Instant)
    requires Inv(r) && Legal(r, e)
    ensures BackoffInv(Step(r, e, horizon))
  {
    var r' := Step(r, e, horizon);
    forall i | 0 <= i < COUNT
      ensures && Spaced(r'.fetches[i])
              && r'.coordinator.failures[i] == Min(Trailing(r'.fetches[i]), FAILURE_CAP)
              && (Trailing(r'.fetches[i]) > 0 ==>
                    r'.coordinator.nextEligible[i].Some? && Allows(r'.fetches[i], r'.coordinator.nextEligible[i].value))
              && (r'.pending.Some? && ALL[i] in r'.pending.value.plan.sources ==>
                    && Allows(r'.fetches[i], r'.clock)
                    && (r'.pending.value.started.Some? ==> Allows(r'.fetches[i], r'.pending.value.started.value)))
    {
      match e
      case Begin(now, generation) => BackoffKeptByBegin(r, now, generation, horizon, i);
      case Start(now) =>
      case Complete(now, nowUnix, failures) => BackoffKeptByComplete(r, now, nowUnix, failures, horizon, i);
    }
  }

  lemma {:induction false} BackoffKeptByBegin(r: Run, now: Instant, generation: nat, horizon: Instant,
                                              i: nat)
    requires Inv(r) && Legal(r, Begin(now, generation)) && i < COUNT
    ensures var r' := Step(r, Begin(now, generation), horizon);
            && r'.fetches == r.fetches
            && r'.coordinator.failures == r.coordinator.failures
            && (r'.pending.Some? ==> r'.pending.value.started.None?)
            && (Trailing(r.fetches[i]) > 0 ==>
                  r'.coordinator.nextEligible[i].Some? && Allows(r.fetches[i], r'.coordinator.nextEligible[i].value))
            && (r'.pending.Some? && ALL[i] in r'.pending.value.plan.sources ==> Allows(r.fetches[i], now))
  {
    BeginMeaning(r.coordinator, now, generation);
    assert Index(ALL[i]) == i;
    var begun := AfterBegin(r.coordinator, now, generation);
    if begun.result.Ok? && ALL[i] in begun.result.value.sources {
      assert Eligible(r.coordinator, ALL[i], now);
    }
  }

  lemma {:induction false} BackoffKeptByComplete(r: Run, now: Instant, nowUnix: int,
                                                 failures: seq<ProviderError>, horizon: Instant, i: nat)
    requires Inv(r) && Legal(r, Complete(now, nowUnix, failures)) && i < COUNT
    ensures var r' := Step(r, Complete(now, nowUnix, failures), horizon);
            && Spaced(r'.fetches[i])
            && r'.coordinator.failures[i] == Min(Trailing(r'.fetches[i]), FAILURE_CAP)
            && (Trailing(r'.fetches[i]) > 0 ==>
                  r'.coordinator.nextEligible[i].Some? && Allows(r'.fetches[i], r'.coordinator.nextEligible[i].value))
  {
    var r' := Step(r, Complete(now, nowUnix, failures), horizon);
    var f, f' := r.fetches[i], r'.fetches[i];
    if ALL[i] in r.pending.value.plan.sources {
      assert f' == f + [f'[|f|]];
      assert f'[..|f|] == f;
      forall k | 0 < k < |f'| ensures AllowedAt(f', k) {
        if k < |f| { assert AllowedAt(f, k) && f'[..k] == f[..k]; }
      }
      if f'[|f|].failed {
        CapLosesNothing(Trailing(f) + 1);
      }
    }
  }

  /** What beginning leaves alone and what it records. */
  lemma {:induction false} BeginFrame(c: Coordinator, now: Instant, generation: nat)
    requires ValidCoordinator(c)
    ensures var b := AfterBegin(c, now, generation);
            && b.coordinator.completedGeneration == c.completedGeneration
            && (b.result.Err? ==> b.coordinator == c)
            && (b.result.Ok? ==>
                  GateOpen(c, now) && b.coordinator.lastAttempt == Some(now) && b.result.value.generation == generation)
  {
  }

  lemma {:induction false} CadenceKept(r: Run, e: Event, horizon: Instant)
    requires CadenceInv(r) && Shaped(r) && Legal(r, e)
    ensures CadenceInv(Step(r, e, horizon))
  {
    if e.Begin? { BeginFrame(r.coordinator, e.now, e.generation); }
  }

  lemma {:induction false} GenerationKept(r: Run, e: Event, horizon: Instant)
    requires GenerationInv(r) && Shaped(r) && Legal(r, e)
    ensures GenerationInv(Step(r, e, horizon))
  {
    if e.Begin? { BeginFrame(r.coordinator, e.now, e.generation); }
  }

  lemma {:induction false} LastIssuePushed(issued: seq<(Instant, Plan)>, at: Instant, plan: Plan,
                                           p: Provider)
    ensures LastIssue(issued + [(at, plan)], p) == if p in plan.sources then Some(at) else LastIssue(issued, p)
  {
    assert (issued + [(at, plan)])[..|issued|] == issued;
  }

  lemma {:induction false} MatchesIssue(f: seq<Fetch>, now: Instant)
    requires f != [] ==> f[|f| - 1].issued < now
    ensures Matches(Some(now + REFRESH_INTERVAL), Some(now), f)
  {
  }

  lemma {:induction false} MatchesSuccess(deadline: Option<Instant>, last: Option<Instant>, f: seq<Fetch>,
                                          fetch: Fetch)
    requires Matches(deadline, last, f) && last == Some(fetch.issued) && !fetch.failed
    requires f != [] ==> f[|f| - 1].issued < fetch.issued
    ensures Matches(deadline, last, f + [fetch])
  {
    forall at: Instant ensures Cooled(deadline, at) <==> Due(last, f + [fetch], at) {
      assert Cooled(deadline, at) <==> Due(last, f, at);
    }
  }

  /** A deadline is the later of the backoff and the instant the failure asks for. */
  lemma {:induction false} MatchesFailure(count: nat, f: seq<Fetch>, fetch: Fetch, error: ProviderError,
                                          now: Instant, nowUnix: int, horizon: Instant)
    requires count == Min(Trailing(f), FAILURE_CAP) && fetch.start <= now
    requires fetch == FetchOf(fetch.issued, fetch.start, Some(error), now, nowUnix, horizon)
    ensures Trailing(f + [fetch]) == Trailing(f) + 1
    ensures Matches(Some(Deadline(Min(count + 1, FAILURE_CAP), error.kind, now, nowUnix, horizon)),
                    Some(fetch.issued), f + [fetch])
  {
    assert (f + [fetch])[..|f|] == f;
    CapLosesNothing(Trailing(f) + 1);
    assert Backoff(Min(count + 1, FAILURE_CAP)) == Backoff(Trailing(f) + 1);
  }

  lemma {:induction false} BeginDeadline(c: Coordinator, now: Instant, generation: nat, p: Provider)
    requires ValidCoordinator(c)
    ensures var b := AfterBegin(c, now, generation);
            b.result.Ok? ==>
              b.coordinator.nextEligible[Index(p)]
              == if p in b.result.value.sources then Some(now + REFRESH_INTERVAL) else c.nextEligible[Index(p)]
  {
    assert ALL[Index(p)] == p;
  }

  /** A new plan: its providers are due in ten seconds, the others as before. */
  lemma {:induction false} ReadyIssued(r: Run, r': Run, now: Instant, plan: Plan, p: Provider)
    requires Shaped(r) && Shaped(r') && ReadyInvOf(r, p) && r'.fetches == r.fetches
    requires r'.issued == r.issued + [(now, plan)] && r'.pending == Some(Pending(plan, now, None))
    requires r'.coordinator.lastAttempt == Some(now)
    requires r.coordinator.lastAttempt.Some? ==> r.coordinator.lastAttempt.value < now
    requires r'.coordinator.nextEligible[Index(p)]
             == if p in plan.sources then Some(now + REFRESH_INTERVAL) else r.coordinator.nextEligible[Index(p)]
    ensures ReadyInvOf(r', p)
  {
    LastIssuePushed(r.issued, now, plan, p);
    if p in plan.sources { MatchesIssue(r.fetches[Index(p)], now); }
  }

  lemma {:induction false} ReadyKeptByBegin(r: Run, now: Instant, generation: nat, horizon: Instant, p: Provider)
    requires Shaped(r) && ReadyInvOf(r, p) && Legal(r, Begin(now, generation))
    ensures ReadyInvOf(Step(r, Begin(now, generation), horizon), p)
  {
    var begun := AfterBegin(r.coordinator, now, generation);
    if begun.result.Ok? {
      BeginFrame(r.coordinator, now, generation);
      BeginDeadline(r.coordinator, now, generation, p);
      ReadyIssued(r, Step(r, Begin(now, generation), horizon), now, begun.result.value, p);
    }
  }

  lemma {:induction false} CompleteDeadline(r: Run, now: Instant, nowUnix: int,
                                            failures: seq<ProviderError>, horizon: Instant, p: Provider)
    requires Shaped(r) && Legal(r, Complete(now, nowUnix, failures))
    ensures var r', i := Step(r, Complete(now, nowUnix, failures), horizon), Index(p);
            var error, f := FailureOf(failures, p), r.fetches[i];
            && r'.issued == r.issued && r'.coordinator.lastAttempt == r.coordinator.lastAttempt
            && (p !in r.pending.value.plan.sources ==>
                  r'.fetches[i] == f && r'.coordinator.nextEligible[i] == r.coordinator.nextEligible[i])
            && (p in r.pending.value.plan.sources ==>
                  && r'.fetches[i] == f + [FetchOf(r.pending.value.issued, r.pending.value.started.value, error,
                                                   now, nowUnix, horizon)]
                  && r'.coordinator.nextEligible[i]
                     == DeadlineAfter(r.coordinator.failures[i], r.coordinator.nextEligible[i], error,
                                      now, nowUnix, horizon))
  {
    assert ALL[Index(p)] == p;
  }

  /** One more finished fetch of `p`, and the deadline that goes with it. */
  lemma {:induction false} FetchMatches(count: nat, deadline: Option<Instant>, f: seq<Fetch>,
                                        pending: Pending, error: Option<ProviderError>, now: Instant,
                                        nowUnix: int, horizon: Instant)
    requires pending.started.Some? && pending.started.value <= now
    requires count == Min(Trailing(f), FAILURE_CAP) && Matches(deadline, Some(pending.issued), f)
    requires f != [] ==> f[|f| - 1].issued < pending.issued
    ensures Matches(DeadlineAfter(count, deadline, error, now, nowUnix, horizon), Some(pending.issued),
                    f + [FetchOf(pending.issued, pending.started.value, error, now, nowUnix, horizon)])
  {
    var fetch := FetchOf(pending.issued, pending.started.value, error, now, nowUnix, horizon);
    if error.Some? {
      MatchesFailure(count, f, fetch, error.value, now, nowUnix, horizon);
    } else {
      MatchesSuccess(deadline, Some(pending.issued), f, fetch);
    }
  }

  lemma {:induction false} ReadyKeptByComplete(r: Run, now: Instant, nowUnix: int,
                                               failures: seq<ProviderError>, horizon: Instant, p: Provider)
    requires Shaped(r) && ReadyInvOf(r, p) && Legal(r, Complete(now, nowUnix, failures))
    requires r.coordinator.failures[Index(p)] == Min(Trailing(r.fetches[Index(p)]), FAILURE_CAP)
    requires r.pending.value.started.value <= r.clock
    requires r.coordinator.lastAttempt == Some(r.pending.value.issued)
    ensures ReadyInvOf(Step(r, Complete(now, nowUnix, failures), horizon), p)
  {
    var r' := Step(r, Complete(now, nowUnix, failures), horizon);
    CompleteDeadline(r, now, nowUnix, failures, horizon, p);
    if p in r.pending.value.plan.sources {
      FetchMatches(r.coordinator.failures[Index(p)], r.coordinator.nextEligible[Index(p)], r.fetches[Index(p)],
                   r.pending.value, FailureOf(failures, p), now, nowUnix, horizon);
    }
    ReadyCarries(r, r', p);
  }

  /** A plan that is over leaves only the deadline and the last fetch to look at. */
  lemma {:induction false} ReadyCarries(r: Run, r': Run, p: Provider)
    requires Shaped(r) && Shaped(r') && r'.pending.None? && r'.issued == r.issued
    requires r'.coordinator.lastAttempt == r.coordinator.lastAttempt
    requires Matches(r'.coordinator.nextEligible[Index(p)], LastIssue(r.issued, p), r'.fetches[Index(p)])
    requires var f := r'.fetches[Index(p)];
             f != [] ==> r.coordinator.lastAttempt.Some? && f[|f| - 1].issued <= r.coordinator.lastAttempt.value
    ensures ReadyInvOf(r', p)
  {
  }

  lemma {:induction false} ReadyKept(r: Run, e: Event, horizon: Instant)
    requires Inv(r) && Legal(r, e)
    ensures ReadyInv(Step(r, e, horizon))
  {
    forall p ensures ReadyInvOf(Step(r, e, horizon), p) {
      assert ReadyInvOf(r, p);
      match e
      case Begin(now, generation) => ReadyKeptByBegin(r, now, generation, horizon, p);
      case Start(now) =>
      case Complete(now, nowUnix, failures) => ReadyKeptByComplete(r, now, nowUnix, failures, horizon, p);
    }
  }

  lemma {:induction false} BeginTurn(c: Coordinator, now: Instant, generation: nat)
    requires ValidCoordinator(c)
    ensures var b := AfterBegin(c, now, generation);
            b.result.Ok? ==>
              && WellShaped(b.result.value)
              && b.coordinator.nextSource == (Index(LastProvider(b.result.value)) + 1) % COUNT
  {
    BeginMeaning(c, now, generation);
  }

  lemma {:induction false} TurnKept(r: Run, e: Event, horizon: Instant)
    requires Shaped(r) && TurnInv(r) && Legal(r, e)
    ensures TurnInv(Step(r, e, horizon))
  {
    if e.Begin? {
      BeginTurn(r.coordinator, e.now, e.generation);
    }
  }

  lemma {:induction false} StepKeepsInv(r: Run, e: Event, horizon: Instant)
    requires Inv(r) && Legal(r, e)
    ensures Inv(Step(r, e, horizon))
  {
    ReadyKept(r, e, horizon);
    TurnKept(r, e, horizon);
    BackoffKept(r, e, horizon);
    CadenceKept(r, e, horizon);
    GenerationKept(r, e, horizon);
  }

  lemma {:induction false} BootInv(now: Instant)
    ensures Inv(Boot(now))
  {
  }

  lemma {:induction false} RunKeepsInv(r: Run, events: seq<Event>, horizon: Instant)
    requires Inv(r) && LegalRun(r, events, horizon)
    ensures Inv(After(r, events, horizon))
    decreases |events|
  {
    if events != [] {
      StepKeepsInv(r, events[0], horizon);
      RunKeepsInv(Step(r, events[0], horizon), events[1..], horizon);
    }
  }

  /** The states of all runs of one process. */
  ghost predicate Reachable(r: Run, horizon: Instant) {
    exists boot: Instant, events: seq<Event> ::
      LegalRun(Boot(boot), events, horizon) && r == After(Boot(boot), events, horizon)
  }

  lemma {:induction false} ReachableInv(r: Run, horizon: Instant)
    requires Reachable(r, horizon)
    ensures Inv(r)
  {
    var boot: Instant, events: seq<Event> :|
      LegalRun(Boot(boot), events, horizon) && r == After(Boot(boot), events, horizon);
    BootInv(boot);
    RunKeepsInv(Boot(boot), events, horizon);
  }

  // ---- Backoff over whole runs ---------------------------------------------

  /** The waiting time after failures 1..n in a row. */
  function TotalBackoff(n: nat): nat {
    if n == 0 then 0 else TotalBackoff(n - 1) + Backoff(n)
  }

  lemma {:induction false} TotalBackoffClosed(n: nat)
    ensures TotalBackoff(n) == if n <= 5 then 10 * (Pow2(n) - 1) else 310 + 300 * (n - 5)
  {
    if n > 0 {
      TotalBackoffClosed(n - 1);
      assert Pow2(5) == 32;
      if n <= 5 { Pow2Grows(n - 1, 4); assert Pow2(4) == 16; } else { Pow2Grows(5, n - 1); }
    }
  }

  /** A run of failures i..j is no longer than the trailing count at j. */
  lemma {:induction false} TrailingCovers(f: seq<Fetch>, i: nat, j: nat)
    requires i <= j <= |f|
    requires forall k :: i <= k < j ==> f[k].failed
    ensures Trailing(f[..j]) >= j - i
    decreases j
  {
    if i < j {
      TrailingCovers(f, i, j - 1);
      assert f[..j][..j - 1] == f[..j - 1];
    }
  }

  lemma {:induction false} SpacedOnce(f: seq<Fetch>, i: nat, j: nat)
    requires Spaced(f) && i < j < |f|
    requires forall k :: i <= k < j ==> f[k].failed
    ensures f[j].start >= f[j - 1].end + Backoff(j - i) as real
  {
    TrailingCovers(f, i, j);
    BackoffGrows(j - i, Trailing(f[..j]));
    assert AllowedAt(f, j);
  }

  lemma {:induction false} SpacedBackoff(f: seq<Fetch>, i: nat, j: nat)
    requires Spaced(f) && i <= j < |f|
    requires forall k :: i <= k < j ==> f[k].failed
    ensures f[j].start >= (if i < j then f[i].end else f[i].start) + TotalBackoff(j - i) as real
    decreases j
  {
    if i < j {
      SpacedBackoff(f, i, j - 1);
      SpacedOnce(f, i, j);
      assert TotalBackoff(j - i) == TotalBackoff(j - 1 - i) + Backoff(j - i);
    }
  }

  /** In every run of one process, if fetches i..j-1 of a provider all failed, then its
      j-th fetch started at least the last backoff after the previous one had completed, and
      at least TotalBackoff(j - i) seconds after the i-th had. */
  lemma {:induction false} BackoffOverRuns(r: Run, horizon: Instant, p: Provider, i: nat, j: nat)
    requires Reachable(r, horizon)
    requires i < j < |r.fetches[Index(p)]|
    requires forall k :: i <= k < j ==> r.fetches[Index(p)][k].failed
    ensures var f := r.fetches[Index(p)];
            && f[j].start >= f[j - 1].end + Backoff(j - i) as real
            && f[j].start >= f[i].end + TotalBackoff(j - i) as real
            && f[i].end >= f[i].start
  {
    SpacedAlways(r, horizon, p);
    SpacedOnce(r.fetches[Index(p)], i, j);
    SpacedBackoff(r.fetches[Index(p)], i, j);
  }

  /** A retry hint that can be represented is honoured: the next fetch does not start earlier. */
  lemma {:induction false} HintsOverRuns(r: Run, horizon: Instant, p: Provider, k: nat)
    requires Reachable(r, horizon)
    requires 0 < k < |r.fetches[Index(p)]| && r.fetches[Index(p)][k - 1].failed
    ensures r.fetches[Index(p)][k].start >= r.fetches[Index(p)][k - 1].retryAt
  {
    SpacedAlways(r, horizon, p);
    HintAt(r.fetches[Index(p)], k);
  }

  lemma {:induction false} SpacedAlways(r: Run, horizon: Instant, p: Provider)
    requires Reachable(r, horizon)
    ensures Shaped(r) && Spaced(r.fetches[Index(p)])
  {
    ReachableInv(r, horizon);
  }

  lemma {:induction false} HintAt(f: seq<Fetch>, k: nat)
    requires Spaced(f) && 0 < k < |f| && f[k - 1].failed
    ensures f[k].start >= f[k - 1].retryAt
  {
    assert AllowedAt(f, k);
    assert f[..k][|f[..k]| - 1] == f[k - 1];
  }

  /** The same bound for I/O that has started but not finished. */
  lemma {:induction false} BackoffBeforeStart(r: Run, horizon: Instant, p: Provider, i: nat)
    requires Reachable(r, horizon)
    requires r.pending.Some? && p in r.pending.value.plan.sources && r.pending.value.started.Some?
    requires i < |r.fetches[Index(p)]|
    requires forall k :: i <= k < |r.fetches[Index(p)]| ==> r.fetches[Index(p)][k].failed
    ensures r.pending.value.started.value
            >= r.fetches[Index(p)][i].end + TotalBackoff(|r.fetches[Index(p)]| - i) as real
  {
    StartAllowed(r, horizon, p, i);
    NextSpaced(r.fetches[Index(p)], i, r.pending.value.started.value);
  }

  lemma {:induction false} StartAllowed(r: Run, horizon: Instant, p: Provider, i: nat)
    requires Reachable(r, horizon)
    requires r.pending.Some? && p in r.pending.value.plan.sources && r.pending.value.started.Some?
    requires i < |r.fetches[Index(p)]|
    requires forall k :: i <= k < |r.fetches[Index(p)]| ==> r.fetches[Index(p)][k].failed
    ensures var f := r.fetches[Index(p)];
            Spaced(f) && r.pending.value.started.value >= f[|f| - 1].end + Backoff(|f| - i) as real
  {
    PendingAllowed(r, horizon, p);
    AllowedAfterFailures(r.fetches[Index(p)], i, r.pending.value.started.value);
  }

  lemma {:induction false} PendingAllowed(r: Run, horizon: Instant, p: Provider)
    requires Reachable(r, horizon)
    requires r.pending.Some? && p in r.pending.value.plan.sources && r.pending.value.started.Some?
    ensures Spaced(r.fetches[Index(p)]) && Allows(r.fetches[Index(p)], r.pending.value.started.value)
  {
    ReachableInv(r, horizon);
    assert ALL[Index(p)] == p;
  }

  lemma {:induction false} AllowedAfterFailures(f: seq<Fetch>, i: nat, at: Instant)
    requires i < |f| && Allows(f, at)
    requires forall k :: i <= k < |f| ==> f[k].failed
    ensures at >= f[|f| - 1].end + Backoff(|f| - i) as real
  {
    TrailingCovers(f, i, |f|);
    assert f[..|f|] == f;
    BackoffGrows(|f| - i, Trailing(f));
  }

  /** A fetch that waits for the last failure is bounded like the ones already made. */
  lemma {:induction false} NextSpaced(f: seq<Fetch>, i: nat, at: Instant)
    requires Spaced(f) && i < |f|
    requires forall k :: i <= k < |f| ==> f[k].failed
    requires at >= f[|f| - 1].end + Backoff(|f| - i) as real
    ensures at >= f[i].end + TotalBackoff(|f| - i) as real
  {
    SpacedBackoff(f, i, |f| - 1);
    assert TotalBackoff(|f| - i) == TotalBackoff(|f| - 1 - i) + Backoff(|f| - i);
  }

  // ---- Exactly when a provider and a plan are due ----------------------------------

  lemma {:induction false} ReachableReady(r: Run, horizon: Instant, p: Provider)
    requires Reachable(r, horizon)
    ensures Shaped(r) && ReadyInvOf(r, p)
  {
    ReachableInv(r, horizon);
  }

  /** In every run a provider is eligible exactly when the history says it is due: neither
      earlier nor later. */
  lemma {:induction false} EligibleExactly(r: Run, horizon: Instant, p: Provider, at: Instant)
    requires Reachable(r, horizon)
    ensures Shaped(r) && (Eligible(r.coordinator, p, at) <==> Ready(r, p, at))
  {
    ReachableReady(r, horizon, p);
  }

  /** What a pending plan's completion finds. */
  lemma {:induction false} PendingMeaning(r: Run, horizon: Instant, p: Provider)
    requires Reachable(r, horizon) && r.pending.Some? && p in r.pending.value.plan.sources
    ensures Shaped(r) && LastIssue(r.issued, p) == Some(r.pending.value.issued)
    ensures r.coordinator.failures[Index(p)] == Min(Trailing(r.fetches[Index(p)]), FAILURE_CAP)
    ensures r.pending.value.started.Some? ==> r.pending.value.started.value <= r.clock
  {
    ReachableInv(r, horizon);
    assert ReadyInvOf(r, p);
  }

  /** Right after a fetch has failed for the n-th time in a row its provider is due again
      exactly when the n-th backoff has passed and a representable hint is reached. */
  lemma {:induction false} DueAfterFailure(r: Run, horizon: Instant, now: Instant, nowUnix: int,
                                           failures: seq<ProviderError>, p: Provider, at: Instant)
    requires Reachable(r, horizon) && Shaped(r) && Legal(r, Complete(now, nowUnix, failures))
    requires p in r.pending.value.plan.sources && FailureOf(failures, p).Some?
    ensures var n := Trailing(r.fetches[Index(p)]) + 1;
            var wait := HintSeconds(FailureOf(failures, p).value.kind, nowUnix);
            Eligible(Step(r, Complete(now, nowUnix, failures), horizon).coordinator, p, at)
            <==> && at >= now + Backoff(n) as real
                 && (wait.Some? && now + wait.value as real <= horizon ==> at >= now + wait.value as real)
  {
    PendingMeaning(r, horizon, p);
    CompleteDeadline(r, now, nowUnix, failures, horizon, p);
    var error, f := FailureOf(failures, p).value, r.fetches[Index(p)];
    var fetch := FetchOf(r.pending.value.issued, r.pending.value.started.value, Some(error), now, nowUnix, horizon);
    MatchesFailure(r.coordinator.failures[Index(p)], f, fetch, error, now, nowUnix, horizon);
    assert Due(Some(fetch.issued), f + [fetch], at)
           <==> at >= now + Backoff(Trailing(f) + 1) as real && at >= fetch.retryAt;
  }

  /** A request for a plan is refused exactly within ten seconds of the last plan, or while
      no provider is due. */
  lemma {:induction false} RefusedExactly(r: Run, horizon: Instant, now: Instant, generation: nat)
    requires Reachable(r, horizon) && Shaped(r)
    ensures var result := AfterBegin(r.coordinator, now, generation).result;
            var early := r.issued != [] && now - r.issued[|r.issued| - 1].0 < 10.0;
            && (result == Err(IntervalNotElapsed) <==> early)
            && (result == Err(AllWaiting) <==> !early && forall p :: !Ready(r, p, now))
  {
    ReachableCadence(r, horizon);
    BeginMeaning(r.coordinator, now, generation);
    forall p ensures Eligible(r.coordinator, p, now) <==> Ready(r, p, now) {
      EligibleExactly(r, horizon, p, now);
    }
  }

  lemma {:induction false} ReachableCadence(r: Run, horizon: Instant)
    requires Reachable(r, horizon)
    ensures CadenceInv(r)
  {
    ReachableInv(r, horizon);
  }

  lemma {:induction false} ReachableTurn(r: Run, horizon: Instant)
    requires Reachable(r, horizon)
    ensures Shaped(r) && TurnInv(r)
  {
    ReachableInv(r, horizon);
  }

  /** Turns from the provider behind `last` to `p`. */
  function Behind(last: Provider, p: Provider): nat {
    (Index(p) + 3 - Index(last)) % 4
  }

  lemma {:induction false} OrdinaryNearest(c: Coordinator, now: Instant, generation: nat, last: Provider,
                                           p: Provider)
    requires ValidCoordinator(c) && c.nextSource == (Index(last) + 1) % COUNT && Eligible(c, p, now)
    requires var result := AfterBegin(c, now, generation).result; result.Ok? && !result.value.full
    ensures var plan := AfterBegin(c, now, generation).result.value;
            && |plan.sources| == 1 && Eligible(c, plan.sources[0], now)
            && Behind(last, plan.sources[0]) <= Behind(last, p)
  {
    BeginMeaning(c, now, generation);
    var q := AfterBegin(c, now, generation).result.value.sources[0];
    BehindIsDistance(c, last, p);
    BehindIsDistance(c, last, q);
  }

  /** In every run an ordinary plan takes the due provider nearest behind the last provider of
      the plan before it, full or ordinary; the first plan starts from CoinGecko. */
  lemma {:induction false} OrdinaryTakesTurn(r: Run, horizon: Instant, now: Instant, generation: nat,
                                             p: Provider)
    requires Reachable(r, horizon) && Shaped(r) && Ready(r, p, now)
    requires var result := AfterBegin(r.coordinator, now, generation).result; result.Ok? && !result.value.full
    ensures var plan := AfterBegin(r.coordinator, now, generation).result.value;
            var last := if r.issued == [] then Gemini else LastProvider(r.issued[|r.issued| - 1].1);
            && |plan.sources| == 1 && Ready(r, plan.sources[0], now)
            && Behind(last, plan.sources[0]) <= Behind(last, p)
  {
    ReachableTurn(r, horizon);
    var last := if r.issued == [] then Gemini else LastProvider(r.issued[|r.issued| - 1].1);
    EligibleExactly(r, horizon, p, now);
    OrdinaryNearest(r.coordinator, now, generation, last, p);
    EligibleExactly(r, horizon, AfterBegin(r.coordinator, now, generation).result.value.sources[0], now);
  }

  lemma {:induction false} BehindIsDistance(c: Coordinator, last: Provider, p: Provider)
    requires ValidCoordinator(c) && c.nextSource == (Index(last) + 1) % COUNT
    ensures Behind(last, p) == Distance(c, p)
  {
  }

  // ---- Cadence ---------------------------------------------------------------

  lemma {:induction false} IssuedApart(r: Run, i: nat, j: nat)
    requires CadenceInv(r) && i <= j < |r.issued|
    ensures r.issued[j].0 >= r.issued[i].0 + REFRESH_INTERVAL * (j - i) as real
    decreases j
  {
    if i < j { IssuedApart(r, i, j - 1); }
  }

  /** Any window of `width` seconds contains at most width/10 + 1 plans. */
  lemma {:induction false} CadenceOverRuns(r: Run, horizon: Instant, i: nat, j: nat, from: Instant,
                                           width: real)
    requires Reachable(r, horizon)
    requires i <= j < |r.issued|
    requires from <= r.issued[i].0 && r.issued[j].0 <= from + width
    ensures (j - i + 1) as real <= width / 10.0 + 1.0
  {
    ReachableInv(r, horizon);
    IssuedApart(r, i, j);
  }

  // ---- Starvation freedom ------------------------------------------------------

  /** The plans issued while `events` happen. */
  function PlansDuring(r: Run, events: seq<Event>, horizon: Instant): seq<Plan>
    requires Shaped(r) && LegalRun(r, events, horizon)
    decreases |events|
  {
    if events == [] then []
    else
      var r' := Step(r, events[0], horizon);
      var rest := PlansDuring(r', events[1..], horizon);
      if events[0].Begin? && r'.pending.Some? then [r'.pending.value.plan] + rest else rest
  }

  /** `p` may be dispatched now and no pending plan holds it. */
  predicate Waiting(r: Run, p: Provider)
    requires Shaped(r)
  {
    Eligible(r.coordinator, p, r.clock) && (r.pending.Some? ==> p !in r.pending.value.plan.sources)
  }

  /** Once the rotation passes q, everything behind q is closer. */
  lemma {:induction false} RotationAdvances(c: Coordinator, c': Coordinator, p: Provider, q: Provider)
    requires ValidCoordinator(c) && ValidCoordinator(c')
    requires c'.nextSource == (Index(q) + 1) % COUNT
    requires Distance(c, q) <= Distance(c, p) && p != q
    ensures Distance(c', p) < Distance(c, p)
  {
    IndexDiffers(p, q);
    var d := Distance(c, p) - Distance(c, q);
    assert d == Index(p) - Index(q) || d == Index(p) - Index(q) + 4 || d == Index(p) - Index(q) - 4;
    assert Distance(c', p) == (Index(p) + 3 - Index(q)) % 4;
  }

  lemma {:induction false} IndexDiffers(p: Provider, q: Provider)
    requires p != q
    ensures Index(p) != Index(q)
  {
    if Index(p) == Index(q) { IndexInjective(p, q); }
  }

  /** A waiting provider is dispatched, or keeps waiting; a plan that skips it brings it closer. */
  lemma {:induction false} WaitingStep(r: Run, e: Event, horizon: Instant, p: Provider)
    requires Shaped(r) && Legal(r, e) && Waiting(r, p)
    ensures var r' := Step(r, e, horizon);
            || (e.Begin? && r'.pending.Some? && p in r'.pending.value.plan.sources)
            || (Waiting(r', p)
                && (if e.Begin? && r'.pending.Some?
                    then Distance(r'.coordinator, p) < Distance(r.coordinator, p)
                    else Distance(r'.coordinator, p) == Distance(r.coordinator, p)))
  {
    assert ALL[Index(p)] == p;
    if e.Begin? {
      WaitingBegin(r.coordinator, e.now, e.generation, p);
    }
  }

  lemma {:induction false} WaitingBegin(c: Coordinator, now: Instant, generation: nat, p: Provider)
    requires ValidCoordinator(c) && Eligible(c, p, now)
    ensures var b := AfterBegin(c, now, generation);
            ValidCoordinator(b.coordinator)
            && (b.result.Ok? && p !in b.result.value.sources ==>
                  Eligible(b.coordinator, p, now) && Distance(b.coordinator, p) < Distance(c, p))
  {
    BeginMeaning(c, now, generation);
    assert ALL[Index(p)] == p;
    var b := AfterBegin(c, now, generation);
    if b.result.Ok? && p !in b.result.value.sources {
      var q := b.result.value.sources[0];
      assert Distance(c, q) <= Distance(c, p);
      RotationAdvances(c, b.coordinator, p, q);
    }
  }

  /** A waiting provider appears in one of the next Distance + 1 plans, so in one of the
      next four, whatever mix of ordinary and full plans is issued. */
  lemma {:induction false} StarvationFreedom(r: Run, events: seq<Event>, horizon: Instant, p: Provider)
    returns (k: nat)
    requires Shaped(r) && LegalRun(r, events, horizon) && Waiting(r, p)
    requires Distance(r.coordinator, p) < |PlansDuring(r, events, horizon)|
    ensures k <= Distance(r.coordinator, p) < COUNT
    ensures k < |PlansDuring(r, events, horizon)| && p in PlansDuring(r, events, horizon)[k].sources
    decreases |events|
  {
    var e := events[0];
    var r' := Step(r, e, horizon);
    WaitingStep(r, e, horizon, p);
    if e.Begin? && r'.pending.Some? && p in r'.pending.value.plan.sources {
      k := 0;
    } else {
      var rest := StarvationFreedom(r', events[1..], horizon, p);
      k := if e.Begin? && r'.pending.Some? then rest + 1 else rest;
    }
  }

  /** Without a plan that contains it, a waiting provider stays eligible. */
  lemma {:induction false} StaysEligible(r: Run, events: seq<Event>, horizon: Instant, p: Provider)
    requires Shaped(r) && LegalRun(r, events, horizon) && Waiting(r, p)
    requires forall plan :: plan in PlansDuring(r, events, horizon) ==> p !in plan.sources
    ensures Waiting(After(r, events, horizon), p)
    decreases |events|
  {
    if events != [] {
      var r' := Step(r, events[0], horizon);
      WaitingStep(r, events[0], horizon, p);
      var rest := PlansDuring(r', events[1..], horizon);
      assert forall plan :: plan in rest ==> plan in PlansDuring(r, events, horizon);
      if events[0].Begin? && r'.pending.Some? {
        assert r'.pending.value.plan in PlansDuring(r, events, horizon);
      }
      StaysEligible(r', events[1..], horizon, p);
    }
  }

  // ---- Activations -------------------------------------------------------------

  /** In every run, a plan issued for generation g is full exactly when no full plan that
      captured g or later has completed. */
  lemma {:induction false} ActivationNotLost(r: Run, horizon: Instant, now: Instant, g: nat)
    requires Reachable(r, horizon) && Shaped(r) && Legal(r, Begin(now, g))
    requires AfterBegin(r.coordinator, now, g).result.Ok?
    ensures AfterBegin(r.coordinator, now, g).result.value.full
            <==> g > 0 && forall plan :: plan in r.acknowledged ==> plan.generation < g
  {
    ReachableInv(r, horizon);
    BeginMeaning(r.coordinator, now, g);
    if r.acknowledged != [] {
      assert r.acknowledged[|r.acknowledged| - 1] in r.acknowledged;
      forall k | 0 <= k < |r.acknowledged| ensures r.acknowledged[k].generation <= r.coordinator.completedGeneration {
        AcknowledgedSorted(r, k);
      }
    }
  }

  /** The acknowledged generation never goes back and never passes the latest request. */
  lemma {:induction false} AcknowledgementMonotone(r: Run, events: seq<Event>, horizon: Instant)
    requires Inv(r) && LegalRun(r, events, horizon)
    ensures r.coordinator.completedGeneration
            <= After(r, events, horizon).coordinator.completedGeneration
            <= After(r, events, horizon).seen
    decreases |events|
  {
    if events != [] {
      StepKeepsInv(r, events[0], horizon);
      if events[0].Begin? { BeginFrame(r.coordinator, events[0].now, events[0].generation); }
      AcknowledgementMonotone(Step(r, events[0], horizon), events[1..], horizon);
    }
  }

  lemma {:induction false} AcknowledgedSorted(r: Run, k: nat)
    requires GenerationInv(r) && k < |r.acknowledged|
    ensures r.acknowledged[k].generation <= r.coordinator.completedGeneration
    decreases |r.acknowledged| - k
  {
    if k + 1 < |r.acknowledged| { AcknowledgedSorted(r, k + 1); }
  }
}
