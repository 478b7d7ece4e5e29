/** Ownership of the headline feed's request and timer (src/dashboard.js). */
module Feed {
  import opened Common

  /** `request` holds the generation that owns the request in flight. */
  datatype View = View(
    running: bool,
    hidden: bool,
    generation: nat,
    request: Option<nat>,
    timer: Option<nat>,
    armed: set<nat>,
    nextCheck: int,
    now: int,
    nextId: nat)

  function Unarmed(f: View): View {
    f.(armed := if f.timer.Some? then f.armed - {f.timer.value} else f.armed, timer := None)
  }

  function AfterSchedule(f: View): View {
    var f' := Unarmed(f);
    if f.running && !f.hidden && f.request.None?
    then f'.(timer := Some(f.nextId), armed := f'.armed + {f.nextId}, nextId := f.nextId + 1)
    else f'
  }

  function AfterRefresh(f: View): View {
    if !f.running || f.hidden || f.request.Some? then f
    else if f.now < f.nextCheck then AfterSchedule(f)
    else Unarmed(f).(request := Some(f.generation))
  }

  function AfterStart(f: View): View {
    if f.running || f.hidden then f else AfterRefresh(f.(running := true, generation := f.generation + 1))
  }

  function AfterStop(f: View): View {
    if !f.running then f else Unarmed(f.(running := false, generation := f.generation + 1))
  }

  /** The settled request, aborted or not, gives up ownership; only one that still belongs to
      the current visible period sets the retry time. */
  function AfterSettle(f: View, retryDelay: nat): View
    requires f.request.Some?
  {
    var current := f.running && !f.hidden && f.request.value == f.generation;
    AfterSchedule(f.(request := None, nextCheck := if current then f.now + retryDelay else f.nextCheck))
  }

  datatype Event =
    | Clock(now: int)
    | Visibility(hidden: bool)
    | PageHide
    | PageShow
    | Fire(timer: nat)
    | Settle(retryDelay: nat)

  predicate Enabled(f: View, e: Event) {
    match e
    case Fire(t) => t in f.armed
    case Settle(_) => f.request.Some?
    case _ => true
  }

  function Next(f: View, e: Event): View
    requires Enabled(f, e)
  {
    match e
    case Clock(now) => f.(now := now)
    case Visibility(hidden) => if hidden then AfterStop(f.(hidden := true)) else AfterStart(f.(hidden := false))
    case PageHide => AfterStop(f)
    case PageShow => AfterStart(f)
    case Fire(t) => AfterRefresh(f.(armed := f.armed - {t}))
    case Settle(retryDelay) => AfterSettle(f, retryDelay)
  }

  predicate EnabledRun(f: View, events: seq<Event>)
    decreases |events|
  {
    events == [] || (Enabled(f, events[0]) && EnabledRun(Next(f, events[0]), events[1..]))
  }

  function Exec(f: View, events: seq<Event>): View
    requires EnabledRun(f, events)
    decreases |events|
  {
    if events == [] then f else Exec(Next(f, events[0]), events[1..])
  }

  /** While the feed runs it is exactly one request or one armed timer; otherwise no timer is
      armed. No timer is ever left behind. */
  ghost predicate Inv(f: View) {
    && (f.running ==> !f.hidden && (f.request.Some? <==> f.timer.None?))
    && (!f.running ==> f.timer.None?)
    && f.armed == (if f.timer.Some? then {f.timer.value} else {})
    && (f.request.Some? ==> f.request.value <= f.generation)
    && (f.timer.Some? ==> f.timer.value < f.nextId)
  }

  lemma {:induction false} InvNext(f: View, e: Event)
    requires Inv(f) && Enabled(f, e)
    ensures Inv(Next(f, e))
  {
  }

  /** In every run of hides, shows, timers and late settlements one loop stays alive. */
  lemma {:induction false} FeedNeverDies(f: View, events: seq<Event>)
    requires Inv(f) && EnabledRun(f, events)
    ensures var f' := Exec(f, events);
            && (f'.running ==> (f'.request.Some? <==> f'.armed == {}) && |f'.armed| <= 1)
            && (!f'.running ==> f'.armed == {})
    decreases |events|
  {
    if events != [] {
      InvNext(f, events[0]);
      FeedNeverDies(Next(f, events[0]), events[1..]);
    }
  }

  /** Requests start only when none is in flight and the retry time has come, and only a
      settlement of the current visible period moves the retry time. */
  lemma {:induction false} RetryTimeRespected(f: View, e: Event)
    requires Inv(f) && Enabled(f, e)
    ensures Next(f, e).request.Some? && Next(f, e).request != f.request ==> f.request.None? && f.now >= f.nextCheck
    ensures Next(f, e).nextCheck ==
            if e.Settle? && f.request == Some(f.generation) && f.running && !f.hidden
            then f.now + e.retryDelay else f.nextCheck
  {
  }

  /** The feed is turned on by the events that show the page and off by those that hide it. */
  lemma {:induction false} RunsWhileShown(f: View, e: Event)
    requires Inv(f) && Enabled(f, e)
    ensures Next(f, e).running ==
            match e
            case Visibility(hidden) => !hidden
            case PageHide => false
            case PageShow => f.running || !f.hidden
            case _ => f.running
    ensures Next(f, e).generation == f.generation + if Next(f, e).running == f.running then 0 else 1
  {
  }

  /** A request keeps its ownership until it settles, whatever is hidden or shown meanwhile, so
      two never overlap. */
  lemma {:induction false} OwnershipKept(f: View, e: Event)
    requires Inv(f) && Enabled(f, e) && f.request.Some?
    ensures Next(f, e).request == if e.Settle? then None else f.request
  {
  }

  /** A request starts exactly when the page is shown or the timer fires, none is in flight,
      and the retry time has come; it belongs to the current visible period. */
  lemma {:induction false} RequestsExactly(f: View, e: Event)
    requires Inv(f) && Enabled(f, e) && f.request.None?
    ensures Next(f, e).request ==
            if (e.Fire? || (!f.running && Next(f, e).running)) && f.now >= f.nextCheck
            then Some(Next(f, e).generation) else None
  {
  }

  /** The feed's variables and the functions that update them. */
  class Loop {
    var running: bool
    var hidden: bool
    var generation: nat
    var request: Option<nat>
    var timer: Option<nat>
    var armed: set<nat>
    var nextCheck: int
    var now: int
    var nextId: nat

    ghost function Value(): View
      reads this
    {
      View(running, hidden, generation, request, timer, armed, nextCheck, now, nextId)
    }

    constructor (hidden: bool, now: int)
      ensures Value() == View(false, hidden, 0, None, None, {}, 0, now, 0) && Inv(Value())
    {
      this.running, this.hidden, this.generation, this.request, this.timer := false, hidden, 0, None, None;
      this.armed, this.nextCheck, this.now, this.nextId := {}, 0, now, 0;
    }

    method ClearTimer()
      modifies this`armed, this`timer
      ensures Value() == Unarmed(old(Value()))
    {
      if timer.Some? {
        armed := armed - {timer.value};
      }
      timer := None;
    }

    method ScheduleFeed()
      modifies this`armed, this`timer, this`nextId
      ensures Value() == AfterSchedule(old(Value()))
    {
      ClearTimer();
      if running && !hidden && request.None? {
        timer := Some(nextId);
        armed := armed + {nextId};
        nextId := nextId + 1;
      }
    }

    method RefreshFeed()
      modifies this
      ensures Value() == AfterRefresh(old(Value()))
    {
      if !running || hidden || request.Some? {
        return;
      }
      if now < nextCheck {
        ScheduleFeed();
        return;
      }
      ClearTimer();
      request := Some(generation);
    }

    method StartFeed()
      modifies this
      ensures Value() == AfterStart(old(Value()))
    {
      if running || hidden {
        return;
      }
      running := true;
      generation := generation + 1;
      RefreshFeed();
    }

    method StopFeed()
      modifies this
      ensures Value() == AfterStop(old(Value()))
    {
      if !running {
        return;
      }
      running := false;
      generation := generation + 1;
      ClearTimer();
    }

    method Settle(retryDelay: nat)
      requires request.Some?
      modifies this
      ensures Value() == AfterSettle(old(Value()), retryDelay)
    {
      var current := running && !hidden && request.value == generation;
      request := None;
      if current {
        nextCheck := now + retryDelay;
      }
      ScheduleFeed();
    }
  }
}
