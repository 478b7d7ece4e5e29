/** Viewer presence (src/presence.rs): a lazily pruned, capacity-limited map of the
    sessions seen lately, and the generation counter that asks for full refreshes. */
module Presence {
  import opened Common

  const VIEWER_TTL: real := 15.0
  const REFRESH_INTERVAL_SECONDS: int := 10

  type Session = string

  datatype Viewers = Viewers(seen: map<Session, Instant>, generation: nat)

  predicate Alive(lastSeen: Instant, now: Instant) {
    SaturatingSince(now, lastSeen) <= VIEWER_TTL
  }

  function Prune(seen: map<Session, Instant>, now: Instant): map<Session, Instant> {
    map s | s in seen && Alive(seen[s], now) :: seen[s]
  }

  datatype Answer = Accepted(count: nat) | Rejected(count: nat)

  datatype Updated = Updated(viewers: Viewers, answer: Answer)

  function AfterUpdate(v: Viewers, session: Session, active: bool, now: Instant, cap: nat): Updated {
    var pruned := Prune(v.seen, now);
    if active && session !in pruned && |pruned| >= cap then
      Updated(v.(seen := pruned), Rejected(|pruned|))
    else if active then
      var seen := pruned[session := now];
      Updated(Viewers(seen, if pruned == map[] then v.generation + 1 else v.generation), Accepted(|seen|))
    else
      Updated(v.(seen := pruned - {session}), Accepted(|pruned - {session}|))
  }

  // ---- The plain event history ----------------------------------------------

  /** One call: a heartbeat or removal of a session, or a count. */
  datatype Call = Heartbeat(session: Session) | Removal(session: Session) | Count

  datatype Timed = Timed(now: Instant, call: Call)

  predicate Monotone(h: seq<Timed>) {
    forall i, j :: 0 <= i < j < |h| ==> h[i].now <= h[j].now
  }

  /** The sessions that count as viewers at `now`: their last accepted call was a heartbeat
      no more than fifteen seconds ago. No map is kept; the whole history is consulted. */
  ghost predicate Viewing(h: seq<Timed>, session: Session, now: Instant, cap: nat)
    decreases |h|, 1
  {
    var last := LastSeen(h, session, cap);
    last.Some? && Alive(last.value, now)
  }

  /** The instant of the session's last accepted call, if that was a heartbeat. */
  ghost function LastSeen(h: seq<Timed>, session: Session, cap: nat): Option<Instant>
    decreases |h|, 0
  {
    if h == [] then None
    else
      var before, last := h[..|h| - 1], h[|h| - 1];
      match last.call
      case Heartbeat(s) =>
        if s == session && Admitted(before, s, last.now, cap) then Some(last.now) else LastSeen(before, session, cap)
      case Removal(s) =>
        if s == session then None else LastSeen(before, session, cap)
      case Count => LastSeen(before, session, cap)
  }

  /** A heartbeat is admitted for a current viewer, or while fewer than `cap` sessions view. */
  ghost predicate Admitted(h: seq<Timed>, session: Session, now: Instant, cap: nat)
    decreases |h|, 3
  {
    Viewing(h, session, now, cap) || |Audience(h, now, cap)| < cap
  }

  /** Every session that ever called. */
  ghost function Callers(h: seq<Timed>): set<Session> {
    if h == [] then {}
    else
      var rest := Callers(h[..|h| - 1]);
      match h[|h| - 1].call
      case Heartbeat(s) => rest + {s}
      case Removal(s) => rest + {s}
      case Count => rest
  }

  ghost function Audience(h: seq<Timed>, now: Instant, cap: nat): set<Session>
    decreases |h|, 2
  {
    set s | s in Callers(h) && Viewing(h, s, now, cap)
  }

  /** How often an admitted heartbeat found nobody viewing. */
  ghost function Activations(h: seq<Timed>, cap: nat): nat {
    if h == [] then 0
    else
      var before, last := h[..|h| - 1], h[|h| - 1];
      Activations(before, cap)
      + if last.call.Heartbeat? && Admitted(before, last.call.session, last.now, cap)
           && Audience(before, last.now, cap) == {} then 1 else 0
  }

  // ---- The lazily pruned map ----------------------------------------------------

  function AfterCall(v: Viewers, t: Timed, cap: nat): Viewers {
    match t.call
    case Heartbeat(s) => AfterUpdate(v, s, true, t.now, cap).viewers
    case Removal(s) => AfterUpdate(v, s, false, t.now, cap).viewers
    case Count => v.(seen := Prune(v.seen, t.now))
  }

  function AfterCalls(h: seq<Timed>, cap: nat): Viewers
    decreases |h|
  {
    if h == [] then Viewers(map[], 0)
    else AfterCall(AfterCalls(h[..|h| - 1], cap), h[|h| - 1], cap)
  }

  lemma {:induction false} OnlyCallersSeen(h: seq<Timed>, session: Session, cap: nat)
    requires LastSeen(h, session, cap).Some?
    ensures session in Callers(h)
    decreases |h|
  {
    if h != [] && LastSeen(h[..|h| - 1], session, cap).Some? {
      OnlyCallersSeen(h[..|h| - 1], session, cap);
    }
  }

  /** The entry of one session stands for its last accepted heartbeat, and an entry that
      was dropped is dead from `now` on. */
  ghost predicate AgreesOn(h: seq<Timed>, v: Viewers, s: Session, now: Instant, cap: nat) {
    if s in v.seen then LastSeen(h, s, cap) == Some(v.seen[s]) else !Viewing(h, s, now, cap)
  }

  ghost predicate Agrees(h: seq<Timed>, v: Viewers, cap: nat) {
    forall now: Instant, s: Session :: (h == [] || h[|h| - 1].now <= now) ==> AgreesOn(h, v, s, now, cap)
  }

  lemma {:induction false} PrunedAudience(h: seq<Timed>, v: Viewers, now: Instant, cap: nat)
    requires Agrees(h, v, cap) && (h == [] || h[|h| - 1].now <= now)
    ensures forall s :: s in Prune(v.seen, now) <==> Viewing(h, s, now, cap)
    ensures Prune(v.seen, now).Keys == Audience(h, now, cap)
    ensures |Prune(v.seen, now)| == |Audience(h, now, cap)|
  {
    forall s ensures (s in Prune(v.seen, now) <==> Viewing(h, s, now, cap))
                     && (s in Prune(v.seen, now) <==> s in Audience(h, now, cap)) {
      assert AgreesOn(h, v, s, now, cap);
      if Viewing(h, s, now, cap) { OnlyCallersSeen(h, s, cap); }
    }
    assert |Prune(v.seen, now)| == |Prune(v.seen, now).Keys|;
  }

  /** What the last call of a history changes for one session. */
  lemma {:induction false} LastSeenStep(h: seq<Timed>, s: Session, cap: nat)
    requires h != []
    ensures var before, last := h[..|h| - 1], h[|h| - 1];
            LastSeen(h, s, cap) ==
            if last.call == Heartbeat(s) && Admitted(before, s, last.now, cap) then Some(last.now)
            else if last.call == Removal(s) then None
            else LastSeen(before, s, cap)
  {
  }

  /** Admission by the pruned map is admission by the history. */
  lemma {:induction false} AdmissionAgrees(h: seq<Timed>, v: Viewers, session: Session, now: Instant,
                                           cap: nat)
    requires Agrees(h, v, cap) && (h == [] || h[|h| - 1].now <= now)
    ensures Admitted(h, session, now, cap)
            <==> session in Prune(v.seen, now) || |Prune(v.seen, now)| < cap
  {
    PrunedAudience(h, v, now, cap);
  }

  /** Whether one entry still agrees depends on the last call and the entry before. */
  lemma {:induction false} AgreesOnAfter(h: seq<Timed>, v: Viewers, s: Session, now: Instant, cap: nat)
    requires h != [] && Agrees(h[..|h| - 1], v, cap) && h[|h| - 1].now <= now
    requires |h| > 1 ==> h[|h| - 2].now <= h[|h| - 1].now
    ensures AgreesOn(h, AfterCall(v, h[|h| - 1], cap), s, now, cap)
  {
    var before, last := h[..|h| - 1], h[|h| - 1];
    LastSeenStep(h, s, cap);
    assert AgreesOn(before, v, s, last.now, cap);
    if last.call.Heartbeat? { AdmissionAgrees(before, v, last.call.session, last.now, cap); }
    StaysDead(before, s, last.now, now, cap);
  }

  lemma {:induction false} StaysDead(h: seq<Timed>, s: Session, earlier: Instant, now: Instant, cap: nat)
    requires earlier <= now
    ensures !Viewing(h, s, earlier, cap) ==> !Viewing(h, s, now, cap)
  {
  }

  lemma {:induction false} AgreesAfterCall(h: seq<Timed>, v: Viewers, cap: nat)
    requires h != [] && Monotone(h) && Agrees(h[..|h| - 1], v, cap)
    ensures Agrees(h, AfterCall(v, h[|h| - 1], cap), cap)
  {
    var last := h[|h| - 1];
    forall now: Instant, s: Session | last.now <= now
      ensures AgreesOn(h, AfterCall(v, last, cap), s, now, cap)
    {
      AgreesOnAfter(h, v, s, now, cap);
    }
  }

  /** After every history the map, pruned at any later instant, holds exactly the sessions
      that view according to the history; the counter is the number of activations; and the
      map never outgrows the cap. */
  lemma {:induction false} MapRefinesHistory(h: seq<Timed>, now: Instant, cap: nat)
    requires Monotone(h) && (h == [] || h[|h| - 1].now <= now)
    ensures var v := AfterCalls(h, cap);
            && Prune(v.seen, now).Keys == Audience(h, now, cap)
            && (forall s :: s in Prune(v.seen, now) <==>
                  LastSeen(h, s, cap).Some? && now - LastSeen(h, s, cap).value <= 15.0)
            && (forall s :: s in v.seen ==> LastSeen(h, s, cap) == Some(v.seen[s]))
            && v.generation == Activations(h, cap)
            && |v.seen| <= cap
  {
    AgreesAlways(h, cap);
    PrunedAudience(h, AfterCalls(h, cap), now, cap);
    forall s | s in AfterCalls(h, cap).seen ensures LastSeen(h, s, cap) == Some(AfterCalls(h, cap).seen[s]) {
      assert AgreesOn(h, AfterCalls(h, cap), s, now, cap);
    }
    CountsAlways(h, cap);
  }

  lemma {:induction false} AgreesAlways(h: seq<Timed>, cap: nat)
    requires Monotone(h)
    ensures Agrees(h, AfterCalls(h, cap), cap)
    decreases |h|
  {
    if h != [] {
      AgreesAlways(h[..|h| - 1], cap);
      AgreesAfterCall(h, AfterCalls(h[..|h| - 1], cap), cap);
    } else {
      forall now: Instant, s: Session ensures AgreesOn(h, AfterCalls(h, cap), s, now, cap) {
        assert LastSeen([], s, cap) == None;
      }
    }
  }

  lemma {:induction false} CountsAlways(h: seq<Timed>, cap: nat)
    requires Monotone(h)
    ensures AfterCalls(h, cap).generation == Activations(h, cap)
    ensures |AfterCalls(h, cap).seen| <= cap
    decreases |h|
  {
    if h != [] {
      var before, last := h[..|h| - 1], h[|h| - 1];
      var v := AfterCalls(before, cap);
      CountsAlways(before, cap);
      AgreesAlways(before, cap);
      PrunedAudience(before, v, last.now, cap);
      assert Prune(v.seen, last.now) == map[] <==> Audience(before, last.now, cap) == {};
      PruneShrinks(v.seen, last.now);
      SizeAfterCall(v, last, cap);
    }
  }

  lemma {:induction false} SizeAfterCall(v: Viewers, t: Timed, cap: nat)
    requires |Prune(v.seen, t.now)| <= cap
    ensures |AfterCall(v, t, cap).seen| <= cap
  {
    if t.call.Heartbeat? {
      InsertSize(Prune(v.seen, t.now), t.call.session, t.now);
    } else if t.call.Removal? {
      RemoveSize(Prune(v.seen, t.now), t.call.session);
    }
  }

  lemma {:induction false} PruneShrinks(seen: map<Session, Instant>, now: Instant)
    ensures |Prune(seen, now)| <= |seen|
  {
    SubsetSize(Prune(seen, now).Keys, seen.Keys);
  }

  lemma {:induction false} InsertSize(seen: map<Session, Instant>, s: Session, now: Instant)
    ensures |seen[s := now]| == if s in seen then |seen| else |seen| + 1
  {
    assert seen[s := now].Keys == seen.Keys + {s};
  }

  lemma {:induction false} RemoveSize(seen: map<Session, Instant>, s: Session)
    ensures |seen - {s}| <= |seen|
  {
    SubsetSize((seen - {s}).Keys, seen.Keys);
  }

  /** Answers match the history: a heartbeat is refused exactly when the history refuses it,
      and every answer reports the size of the audience after the call. */
  lemma {:induction false} AnswersMatchHistory(h: seq<Timed>, session: Session, active: bool, now: Instant,
                                               cap: nat)
    requires Monotone(h) && (h == [] || h[|h| - 1].now <= now)
    ensures var u := AfterUpdate(AfterCalls(h, cap), session, active, now, cap);
            var h' := h + [Timed(now, if active then Heartbeat(session) else Removal(session))];
            && (u.answer.Rejected? <==> active && !Admitted(h, session, now, cap))
            && u.answer.count == |Audience(h', now, cap)|
  {
    var v := AfterCalls(h, cap);
    var t := Timed(now, if active then Heartbeat(session) else Removal(session));
    AgreesAlways(h, cap);
    PrunedAudience(h, v, now, cap);
    AudienceAfterCall(h, t, cap);
  }

  lemma {:induction false} AudienceAfterCall(h: seq<Timed>, t: Timed, cap: nat)
    requires Monotone(h) && (h == [] || h[|h| - 1].now <= t.now)
    ensures |Audience(h + [t], t.now, cap)| == |AfterCall(AfterCalls(h, cap), t, cap).seen|
  {
    var h' := h + [t];
    assert h'[..|h'| - 1] == h;
    var v' := AfterCalls(h', cap);
    AgreesAlways(h', cap);
    PrunedAudience(h', v', t.now, cap);
    assert Prune(v'.seen, t.now) == v'.seen;
  }

  // ---- The mutable map --------------------------------------------------------------

  class ViewerMap {
    var seen: map<Session, Instant>
    var generation: nat
    const cap: nat

    ghost function View(): Viewers
      reads this
    {
      Viewers(seen, generation)
    }

    constructor (cap: nat)
      ensures this.cap == cap && View() == AfterCalls([], cap)
    {
      seen, generation, this.cap := map[], 0, cap;
    }

    method PruneInactive(now: Instant)
      modifies this`seen
      ensures seen == Prune(old(seen), now)
    {
      seen := map s | s in seen && SaturatingSince(now, seen[s]) <= VIEWER_TTL :: seen[s];
    }

    method ApplyUpdate(session: Session, active: bool, now: Instant) returns (answer: Answer)
      modifies this
      ensures Updated(View(), answer) == AfterUpdate(old(View()), session, active, now, cap)
    {
      PruneInactive(now);
      var previouslyEmpty := seen == map[];
      if active && session !in seen && |seen| >= cap {
        return Rejected(|seen|);
      }
      if active {
        seen := seen[session := now];
      } else {
        seen := seen - {session};
      }
      if active && previouslyEmpty && seen != map[] {
        generation := generation + 1;
      }
      answer := Accepted(|seen|);
    }

    method ActiveCount(now: Instant) returns (count: nat)
      modifies this`seen
      ensures View() == AfterCall(old(View()), Timed(now, Count), cap) && count == |seen|
    {
      PruneInactive(now);
      count := |seen|;
    }
  }

  // ---- Gates in front of a refresh ------------------------------------------------------

  /** Snapshot age by checked 64-bit subtraction; unknown for future timestamps. */
  function SnapshotAge(fetchedAt: int, now: int): Option<nat> {
    if 0 <= now - fetchedAt <= I64_MAX then Some(now - fetchedAt) else None
  }

  /** Whether a refresh is skipped for lack of viewers or a recent snapshot. */
  predicate SkipsRefresh(viewers: nat, age: Option<nat>) {
    viewers == 0 || (age.Some? && age.value < REFRESH_INTERVAL_SECONDS)
  }
}
