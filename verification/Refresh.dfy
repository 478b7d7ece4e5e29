/** The refresh scheduler (src/refresh.rs): rotation, cooldowns, capped backoff,
    retry hints and activation generations. `RefreshCoordinator` is the mutable
    object; `Coordinator` is its abstract value and `AfterBegin`, `AfterComplete` its meaning. */
module Refresh {
  import opened Common
  import opened Providers
  import opened Errors

  const REFRESH_INTERVAL: real := 10.0
  const BACKOFF_CAP: nat := 300
  const FAILURE_CAP: nat := 6

  datatype Plan = Plan(sources: seq<Provider>, full: bool, generation: nat)

  datatype Refusal = IntervalNotElapsed | AllWaiting

  datatype Coordinator = Coordinator(
    nextSource: nat,
    lastAttempt: Option<Instant>,
    nextEligible: seq<Option<Instant>>,
    failures: seq<nat>,
    completedGeneration: nat)

  datatype Begun = Begun(coordinator: Coordinator, result: Result<Plan, Refusal>)

  const FRESH: Coordinator :=
    Coordinator(0, None, [None, None, None, None], [0, 0, 0, 0], 0)

  predicate ValidCoordinator(c: Coordinator) {
    && c.nextSource < COUNT
    && |c.nextEligible| == COUNT
    && |c.failures| == COUNT
    && forall i :: 0 <= i < COUNT ==> c.failures[i] <= FAILURE_CAP
  }

  /** The global attempt gate. */
  predicate GateOpen(c: Coordinator, now: Instant) {
    c.lastAttempt.None? || SaturatingSince(now, c.lastAttempt.value) >= REFRESH_INTERVAL
  }

  predicate Cooled(deadline: Option<Instant>, now: Instant) {
    deadline.None? || now >= deadline.value
  }

  predicate Eligible(c: Coordinator, p: Provider, now: Instant)
    requires ValidCoordinator(c)
  {
    Cooled(c.nextEligible[Index(p)], now)
  }

  /** How many turns `p` waits in the rotation before it is considered. */
  function Distance(c: Coordinator, p: Provider): (d: nat)
    requires ValidCoordinator(c)
    ensures d < COUNT
  {
    (Index(p) + COUNT - c.nextSource) % COUNT
  }

  /** The position and the provider considered at a given offset of the scan. */
  function Position(c: Coordinator, full: bool, offset: nat): (i: nat)
    requires offset < COUNT
    ensures i < COUNT
  {
    if full then offset else (c.nextSource + offset) % COUNT
  }

  function Candidate(c: Coordinator, full: bool, offset: nat): Provider
    requires offset < COUNT
  {
    ALL[Position(c, full, offset)]
  }

  /** What the scan still adds from `offset` on. */
  function Scan(c: Coordinator, now: Instant, full: bool, offset: nat): seq<Provider>
    requires ValidCoordinator(c) && offset <= COUNT
    decreases COUNT - offset
  {
    if offset == COUNT then []
    else
      var p := Candidate(c, full, offset);
      if !Eligible(c, p, now) then Scan(c, now, full, offset + 1)
      else if full then [p] + Scan(c, now, full, offset + 1)
      else [p]
  }

  function Reserved(eligible: seq<Option<Instant>>, sources: seq<Provider>, now: Instant): seq<Option<Instant>>
    requires |eligible| == COUNT
  {
    seq(COUNT, i requires 0 <= i < COUNT =>
      if ALL[i] in sources then Some(now + REFRESH_INTERVAL) else eligible[i])
  }

  function AfterBegin(c: Coordinator, now: Instant, generation: nat): (b: Begun)
    requires ValidCoordinator(c)
    ensures ValidCoordinator(b.coordinator)
  {
    var full := generation != c.completedGeneration;
    var sources := Scan(c, now, full, 0);
    if !GateOpen(c, now) then Begun(c, Err(IntervalNotElapsed))
    else if sources == [] then Begun(c, Err(AllWaiting))
    else
      Begun(
        c.(nextSource := (Index(sources[|sources| - 1]) + 1) % COUNT,
           lastAttempt := Some(now),
           nextEligible := Reserved(c.nextEligible, sources, now)),
        Ok(Plan(sources, full, generation)))
  }

  function Pow2(n: nat): (r: nat)
    ensures r >= 1
  {
    if n == 0 then 1 else 2 * Pow2(n - 1)
  }

  /** Seconds to wait after the n-th failure in a row. */
  function Backoff(n: nat): (r: nat)
    requires n >= 1
  {
    Min(10 * Pow2(n - 1), BACKOFF_CAP)
  }

  /** Earliest next attempt after a failure. `horizon` is the last representable
      instant: a hint beyond it is ignored rather than retried at once. */
  function Deadline(count: nat, kind: ErrorKind, now: Instant, nowUnix: int, horizon: Instant): (d: Instant)
    requires count >= 1
    ensures d >= now + Backoff(count) as real
  {
    var backoff := Backoff(count);
    match HintSeconds(kind, nowUnix)
    case None => now + backoff as real
    case Some(delay) =>
      var wanted := now + Max(delay, backoff) as real;
      if wanted <= horizon then wanted else now + backoff as real
  }

  /** A provider's failure count and deadline after its fetch failed with `error`, or not. */
  function CountAfter(count: nat, error: Option<ProviderError>): nat {
    if error.None? then 0 else Min(count + 1, FAILURE_CAP)
  }

  function DeadlineAfter(count: nat, eligible: Option<Instant>, error: Option<ProviderError>,
                         now: Instant, nowUnix: int, horizon: Instant): Option<Instant> {
    if error.None? then eligible
    else Some(Deadline(Min(count + 1, FAILURE_CAP), error.value.kind, now, nowUnix, horizon))
  }

  function CompletedFailures(c: Coordinator, sources: seq<Provider>, failures: seq<ProviderError>): seq<nat>
    requires ValidCoordinator(c)
  {
    seq(COUNT, i requires 0 <= i < COUNT =>
      if ALL[i] in sources then CountAfter(c.failures[i], FailureOf(failures, ALL[i])) else c.failures[i])
  }

  function CompletedEligible(c: Coordinator, sources: seq<Provider>, failures: seq<ProviderError>,
                             now: Instant, nowUnix: int, horizon: Instant): seq<Option<Instant>>
    requires ValidCoordinator(c)
  {
    seq(COUNT, i requires 0 <= i < COUNT =>
      if ALL[i] in sources
      then DeadlineAfter(c.failures[i], c.nextEligible[i], FailureOf(failures, ALL[i]), now, nowUnix, horizon)
      else c.nextEligible[i])
  }

  lemma {:induction false} CompletedStep(c: Coordinator, sources: seq<Provider>, source: Provider,
                                         failures: seq<ProviderError>, now: Instant, nowUnix: int,
                                         horizon: Instant)
    requires ValidCoordinator(c) && source !in sources
    ensures var i, error := Index(source), FailureOf(failures, source);
            var counts, deadlines := CompletedFailures(c, sources, failures),
                                     CompletedEligible(c, sources, failures, now, nowUnix, horizon);
            && counts[i] == c.failures[i] && deadlines[i] == c.nextEligible[i]
            && CompletedFailures(c, sources + [source], failures) == counts[i := CountAfter(counts[i], error)]
            && CompletedEligible(c, sources + [source], failures, now, nowUnix, horizon)
               == deadlines[i := DeadlineAfter(counts[i], deadlines[i], error, now, nowUnix, horizon)]
  {
    forall i | 0 <= i < COUNT && i != Index(source) ensures ALL[i] != source {
      assert Index(ALL[i]) == i;
    }
  }

  function AfterComplete(c: Coordinator, plan: Plan, failures: seq<ProviderError>,
                    now: Instant, nowUnix: int, horizon: Instant): (r: Coordinator)
    requires ValidCoordinator(c)
    ensures ValidCoordinator(r)
  {
    c.(failures := CompletedFailures(c, plan.sources, failures),
       nextEligible := CompletedEligible(c, plan.sources, failures, now, nowUnix, horizon),
       completedGeneration := if plan.full then plan.generation else c.completedGeneration)
  }

  lemma {:induction false} IndexOfElement(i: nat)
    requires i < COUNT
    ensures Index(ALL[i]) == i
  {
  }

  lemma {:induction false} PrependAppend<T>(a: seq<T>, x: T, b: seq<T>)
    ensures a + ([x] + b) == (a + [x]) + b
  {
  }

  /** One step of the scan, by array position, in front of what was already found. */
  lemma {:induction false} ScanStep(c: Coordinator, now: Instant, full: bool, offset: nat,
                                    found: seq<Provider>)
    requires ValidCoordinator(c) && offset < COUNT
    requires found + Scan(c, now, full, offset) == Scan(c, now, full, 0)
    ensures var index := Position(c, full, offset);
            var rest := Scan(c, now, full, offset + 1);
            Scan(c, now, full, 0) ==
            if !Cooled(c.nextEligible[index], now) then found + rest
            else if full then (found + [ALL[index]]) + rest else found + [ALL[index]]
  {
    var index := Position(c, full, offset);
    IndexOfElement(index);
    PrependAppend(found, ALL[index], Scan(c, now, full, offset + 1));
    assert Eligible(c, Candidate(c, full, offset), now) <==> Cooled(c.nextEligible[index], now);
  }

  // ---- What a scan selects -------------------------------------------------

  lemma {:induction false} CandidateAtDistance(c: Coordinator, p: Provider)
    requires ValidCoordinator(c)
    ensures Candidate(c, false, Distance(c, p)) == p
  {
  }

  /** Distances along the rotation identify providers. */
  lemma {:induction false} DistanceOfCandidate(c: Coordinator, offset: nat)
    requires ValidCoordinator(c) && offset < COUNT
    ensures Distance(c, Candidate(c, false, offset)) == offset
  {
  }

  /** A full scan lists every eligible provider ... */
  lemma {:induction false} FullScan(c: Coordinator, now: Instant, offset: nat)
    requires ValidCoordinator(c) && offset <= COUNT
    ensures forall p :: p in Scan(c, now, true, offset) <==> offset <= Index(p) && Eligible(c, p, now)
    decreases COUNT - offset
  {
    if offset < COUNT {
      FullScan(c, now, offset + 1);
      assert Index(ALL[offset]) == offset;
      assert forall p :: Index(p) == offset ==> p == ALL[offset];
    }
  }

  /** ... once, in configured order. */
  lemma {:induction false} FullScanSorted(c: Coordinator, now: Instant, offset: nat)
    requires ValidCoordinator(c) && offset <= COUNT
    ensures InOrder(Scan(c, now, true, offset))
    decreases COUNT - offset
  {
    if offset < COUNT {
      FullScanSorted(c, now, offset + 1);
      FullScan(c, now, offset + 1);
      var rest := Scan(c, now, true, offset + 1);
      assert Index(ALL[offset]) == offset;
      forall j | 0 <= j < |rest| ensures offset < Index(rest[j]) {
        assert rest[j] in rest;
      }
    }
  }

  predicate InOrder(sources: seq<Provider>) {
    forall i, j :: 0 <= i < j < |sources| ==> Index(sources[i]) < Index(sources[j])
  }

  /** An ordinary scan takes the nearest eligible provider of the rotation, if any. */
  lemma {:induction false} OrdinaryScan(c: Coordinator, now: Instant, offset: nat)
    requires ValidCoordinator(c) && offset <= COUNT
    ensures var s := Scan(c, now, false, offset);
            || (s == [] && forall p :: offset <= Distance(c, p) ==> !Eligible(c, p, now))
            || (|s| == 1 && Eligible(c, s[0], now) && offset <= Distance(c, s[0])
                && forall p :: offset <= Distance(c, p) < Distance(c, s[0]) ==> !Eligible(c, p, now))
    decreases COUNT - offset
  {
    if offset < COUNT {
      OrdinaryScan(c, now, offset + 1);
      DistanceOfCandidate(c, offset);
      forall p | Distance(c, p) == offset ensures p == Candidate(c, false, offset) {
        CandidateAtDistance(c, p);
      }
    }
  }

  /** What a plan holds: every eligible provider in order, or the next one in turn. */
  ghost predicate PlanFor(c: Coordinator, now: Instant, plan: Plan)
    requires ValidCoordinator(c)
  {
    && plan.sources != []
    && InOrder(plan.sources)
    && (forall p :: p in plan.sources ==> Eligible(c, p, now))
    && (plan.full ==> forall p :: Eligible(c, p, now) ==> p in plan.sources)
    && (!plan.full ==>
          && |plan.sources| == 1
          && forall p :: Distance(c, p) < Distance(c, plan.sources[0]) ==> !Eligible(c, p, now))
  }

  lemma {:induction false} ScanMeaning(c: Coordinator, now: Instant, plan: Plan)
    requires ValidCoordinator(c) && plan.sources == Scan(c, now, plan.full, 0)
    ensures plan.sources == [] <==> forall p :: !Eligible(c, p, now)
    ensures plan.sources != [] ==> PlanFor(c, now, plan)
  {
    if plan.full {
      FullScan(c, now, 0);
      FullScanSorted(c, now, 0);
      if plan.sources == [] {
        forall p ensures !Eligible(c, p, now) { assert p !in plan.sources; }
      } else {
        assert plan.sources[0] in plan.sources;
      }
    } else {
      OrdinaryScan(c, now, 0);
    }
  }

  /** The shape of every plan and the exact reasons for a refusal. */
  lemma {:induction false} BeginMeaning(c: Coordinator, now: Instant, generation: nat)
    requires ValidCoordinator(c)
    ensures var b := AfterBegin(c, now, generation);
            && (b.result.Err? <==> !GateOpen(c, now) || forall p :: !Eligible(c, p, now))
            && (b.result.Err? ==> b.coordinator == c)
            && (b.result.Ok? ==>
                  && PlanFor(c, now, b.result.value)
                  && b.result.value.generation == generation
                  && (b.result.value.full <==> generation != c.completedGeneration))
  {
    var full := generation != c.completedGeneration;
    ScanMeaning(c, now, Plan(Scan(c, now, full, 0), full, generation));
  }

  lemma {:induction false} TurnBehind(c: Coordinator, last: Provider, p: Provider)
    requires ValidCoordinator(c) && c.nextSource == (Index(last) + 1) % COUNT
    ensures Distance(c, last) == 3
    ensures Index(p) == (Index(last) + 1) % 4 ==> Distance(c, p) == 0
  {
  }

  /** After every plan, full or ordinary, its last provider has the longest way to go and the
      provider behind it is next. */
  lemma {:induction false} TurnPasses(c: Coordinator, now: Instant, generation: nat, p: Provider)
    requires ValidCoordinator(c)
    ensures var b := AfterBegin(c, now, generation);
            b.result.Ok? ==>
              var sources := b.result.value.sources;
              && sources != []
              && Distance(b.coordinator, sources[|sources| - 1]) == 3
              && (Index(p) == (Index(sources[|sources| - 1]) + 1) % 4 ==> Distance(b.coordinator, p) == 0)
  {
    var b := AfterBegin(c, now, generation);
    if b.result.Ok? {
      TurnBehind(b.coordinator, b.result.value.sources[|b.result.value.sources| - 1], p);
    }
  }

  // ---- The mutable object --------------------------------------------------

  class RefreshCoordinator {
    var nextSource: nat
    var lastAttempt: Option<Instant>
    const nextEligible: array<Option<Instant>>
    const consecutiveFailures: array<nat>
    var completedGeneration: nat

    ghost predicate Valid()
      reads this, nextEligible, consecutiveFailures
    {
      && nextEligible.Length == COUNT
      && consecutiveFailures.Length == COUNT
      && nextEligible as object != consecutiveFailures
      && ValidCoordinator(View())
    }

    ghost function View(): Coordinator
      reads this, nextEligible, consecutiveFailures
    {
      Coordinator(nextSource, lastAttempt, nextEligible[..], consecutiveFailures[..], completedGeneration)
    }

    constructor ()
      ensures Valid() && fresh(nextEligible) && fresh(consecutiveFailures)
      ensures View() == FRESH
    {
      nextSource := 0;
      lastAttempt := None;
      nextEligible := new Option<Instant>[COUNT](_ => None);
      consecutiveFailures := new nat[COUNT](_ => 0);
      completedGeneration := 0;
      new;
      assert nextEligible[..] == [None, None, None, None];
      assert consecutiveFailures[..] == [0, 0, 0, 0];
    }

    /** Attempts are recorded before any I/O, so cancellation and storage failures keep the gate. */
    method Begin(now: Instant, requestedGeneration: nat) returns (r: Result<Plan, Refusal>)
      requires Valid()
      modifies this, nextEligible
      ensures Valid()
      ensures Begun(View(), r) == AfterBegin(old(View()), now, requestedGeneration)
    {
      if lastAttempt.Some? && SaturatingSince(now, lastAttempt.value) < REFRESH_INTERVAL {
        return Err(IntervalNotElapsed);
      }
      var full := requestedGeneration != completedGeneration;
      var sources := Select(now, full);
      if sources == [] {
        return Err(AllWaiting);
      }
      lastAttempt := Some(now);
      Reserve(sources, now);
      r := Ok(Plan(sources, full, requestedGeneration));
    }

    /** The scan of `Begin`. */
    method Select(now: Instant, full: bool) returns (sources: seq<Provider>)
      requires nextEligible.Length == COUNT && ValidCoordinator(View())
      ensures sources == Scan(View(), now, full, 0)
    {
      ghost var c := View();
      sources := [];
      var offset := 0;
      while offset < COUNT
        invariant offset <= COUNT
        invariant sources + Scan(c, now, full, offset) == Scan(c, now, full, 0)
      {
        var index := if full then offset else (nextSource + offset) % COUNT;
        assert index == Position(c, full, offset) && c.nextEligible[index] == nextEligible[index];
        ScanStep(c, now, full, offset, sources);
        if nextEligible[index].None? || now >= nextEligible[index].value {
          sources := sources + [ALL[index]];
          if !full {
            return;
          }
        }
        offset := offset + 1;
      }
    }

    /** The reservation loop of `Begin`. */
    method Reserve(sources: seq<Provider>, now: Instant)
      requires nextEligible.Length == COUNT && sources != []
      modifies this`nextSource, nextEligible
      ensures nextEligible[..] == Reserved(old(nextEligible[..]), sources, now)
      ensures nextSource == (Index(sources[|sources| - 1]) + 1) % COUNT
    {
      var k := 0;
      while k < |sources|
        invariant k <= |sources|
        invariant nextEligible[..] == Reserved(old(nextEligible[..]), sources[..k], now)
        invariant k > 0 ==> nextSource == (Index(sources[k - 1]) + 1) % COUNT
      {
        var index := Index(sources[k]);
        nextEligible[index] := Some(now + REFRESH_INTERVAL);
        nextSource := (index + 1) % COUNT;
        assert sources[..k + 1] == sources[..k] + [sources[k]];
        k := k + 1;
      }
      assert sources[..k] == sources;
    }

    /** `plan` comes from `Begin`, so it names each provider at most once. */
    method Complete(plan: Plan, failures: seq<ProviderError>, now: Instant, nowUnix: int, horizon: Instant)
      requires Valid()
      requires forall i, j :: 0 <= i < j < |plan.sources| ==> plan.sources[i] != plan.sources[j]
      modifies this, nextEligible, consecutiveFailures
      ensures Valid()
      ensures View() == AfterComplete(old(View()), plan, failures, now, nowUnix, horizon)
    {
      ghost var c := View();
      var k := 0;
      while k < |plan.sources|
        invariant k <= |plan.sources|
        invariant consecutiveFailures[..] == CompletedFailures(c, plan.sources[..k], failures)
        invariant nextEligible[..] == CompletedEligible(c, plan.sources[..k], failures, now, nowUnix, horizon)
        modifies nextEligible, consecutiveFailures
      {
        var source := plan.sources[k];
        CompletedStep(c, plan.sources[..k], source, failures, now, nowUnix, horizon);
        assert plan.sources[..k + 1] == plan.sources[..k] + [source];
        CompleteSource(source, failures, now, nowUnix, horizon);
        k := k + 1;
      }
      assert plan.sources[..k] == plan.sources;
      if plan.full {
        completedGeneration := plan.generation;
      }
    }

    /** One iteration of `Complete`. */
    method CompleteSource(source: Provider, failures: seq<ProviderError>,
                          now: Instant, nowUnix: int, horizon: Instant)
      requires nextEligible.Length == COUNT && consecutiveFailures.Length == COUNT
      requires nextEligible as object != consecutiveFailures
      modifies nextEligible, consecutiveFailures
      ensures consecutiveFailures[..]
              == old(consecutiveFailures[..])[Index(source) :=
                   CountAfter(old(consecutiveFailures[Index(source)]), FailureOf(failures, source))]
      ensures nextEligible[..]
              == old(nextEligible[..])[Index(source) :=
                   DeadlineAfter(old(consecutiveFailures[Index(source)]), old(nextEligible[Index(source)]),
                                 FailureOf(failures, source), now, nowUnix, horizon)]
    {
      var index := Index(source);
      var error := FailureOf(failures, source);
      if error.Some? {
        var count := Min(consecutiveFailures[index] + 1, FAILURE_CAP);
        consecutiveFailures[index] := count;
        nextEligible[index] := Some(Deadline(count, error.value.kind, now, nowUnix, horizon));
      } else {
        consecutiveFailures[index] := 0;
      }
    }
  }
}
