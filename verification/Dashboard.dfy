/** The dashboard's polling loops (src/dashboard.js): two workers, visibility generations,
    aborted requests that settle late, and timers whose handles may be overwritten.
    `Page` is the abstract state, `Dashboard` the mutable one. */
module Dashboard {
  import opened Common

  datatype Kind = Presence | Price

  /** `handle` is the timer id a worker remembers; the timer may have fired already.
      `controller` aborts the request in flight, which is named here by its id. */
  datatype Worker = Worker(busy: bool, handle: Option<nat>, controller: Option<nat>)

  /** A request in flight, possibly aborted; `owner` is the generation that started it and
      `startup` the promise continuation that waits for it. */
  datatype Flight = Flight(kind: Kind, owner: nat, startup: Option<nat>)

  /** What follows the first heartbeat of a visible period. */
  datatype Continuation = Waiting(owner: nat, flight: nat) | Ready(owner: nat, delay: Option<nat>)

  /** The parts of a price response that matter here. */
  datatype Data = Data(content: int, unavailable: bool, hasSources: bool, refreshing: bool)

  datatype Shown = Shown(lastData: Option<Data>, receivedAt: Instant, priceError: bool, presenceError: bool)

  datatype Page = Page(
    running: bool,
    generation: nat,
    presence: Worker,
    price: Worker,
    armed: map<nat, Kind>,
    flights: map<nat, Flight>,
    continuations: map<nat, Continuation>,
    nextId: nat,
    shown: Shown)

  const INITIAL: Page :=
    Page(false, 0, Worker(false, None, None), Worker(false, None, None), map[], map[], map[], 0,
         Shown(None, 0.0, false, false))

  /** How a request ends. A heartbeat may carry a price, valid or not. */
  datatype Outcome =
    | Failed
    | HeartbeatOk
    | HeartbeatInvalidPrice
    | HeartbeatPrice(data: Data)
    | PriceOk(data: Data)

  const POLL_MS: nat := 5000
  const REFRESHING_MS: nat := 1000

  function WorkerOf(p: Page, k: Kind): Worker {
    if k.Presence? then p.presence else p.price
  }

  function WithWorker(p: Page, k: Kind, w: Worker): Page {
    if k.Presence? then p.(presence := w) else p.(price := w)
  }

  function Cleared(armed: map<nat, Kind>, handle: Option<nat>): map<nat, Kind> {
    if handle.Some? then armed - {handle.value} else armed
  }

  /** `poll` up to its first await; nothing happens while hidden or busy. */
  function AfterPoll(p: Page, k: Kind, startup: Option<nat>): Page {
    if !p.running || WorkerOf(p, k).busy then p
    else
      WithWorker(p, k, Worker(true, None, Some(p.nextId))).(
        armed := Cleared(p.armed, WorkerOf(p, k).handle),
        flights := p.flights[p.nextId := Flight(k, p.generation, startup)],
        nextId := p.nextId + 1)
  }

  function AfterStart(p: Page, hidden: bool): Page {
    if p.running || hidden then p
    else
      var p' := p.(running := true, generation := p.generation + 1);
      var c := p'.nextId;
      // A busy worker makes poll return at once, which resolves its promise.
      var continuation := if p'.presence.busy then Ready(p'.generation, None) else Waiting(p'.generation, c + 1);
      AfterPoll(p'.(continuations := p'.continuations[c := continuation], nextId := c + 1), Presence, Some(c))
  }

  function AfterStop(p: Page): Page {
    if !p.running then p
    else
      p.(running := false,
         generation := p.generation + 1,
         presence := p.presence.(handle := None),
         price := p.price.(handle := None),
         armed := Cleared(Cleared(p.armed, p.presence.handle), p.price.handle))
  }

  function Received(s: Shown, data: Data, now: Instant): Shown {
    if data.unavailable && s.lastData.Some? && s.lastData.value.hasSources then s.(priceError := true)
    else s.(lastData := Some(data), receivedAt := now, priceError := false)
  }

  /** What a settled request of the current generation does to the data and the errors. */
  function Applied(s: Shown, f: Flight, o: Outcome, now: Instant): Shown {
    if f.kind.Presence? then
      match o
      case Failed => s.(presenceError := true)
      case HeartbeatPrice(data) =>
        if f.startup.Some? then Received(s.(presenceError := false), data, now) else s.(presenceError := false)
      case HeartbeatInvalidPrice => s.(presenceError := false, priceError := s.priceError || f.startup.Some?)
      case _ => s.(presenceError := false)
    else
      match o
      case PriceOk(data) => Received(s, data, now)
      case _ => s.(priceError := true)
  }

  /** The delay the startup heartbeat hands to its continuation. */
  function StartupDelay(f: Flight, o: Outcome): Option<nat> {
    if f.kind.Presence? && f.startup.Some? && o.HeartbeatPrice?
    then Some(if o.data.refreshing then REFRESHING_MS else POLL_MS)
    else None
  }

  predicate Current(p: Page, f: Flight) {
    p.running && f.owner == p.generation
  }

  function AfterSettle(p: Page, id: nat, o: Outcome, now: Instant): Page
    requires id in p.flights
  {
    var f := p.flights[id];
    var current := Current(p, f);
    var settled := p.(
      flights := p.flights - {id},
      shown := if current then Applied(p.shown, f, o, now) else p.shown,
      continuations :=
        if f.startup.Some? && f.startup.value in p.continuations
        then p.continuations[f.startup.value :=
               Ready(p.continuations[f.startup.value].owner, if current then StartupDelay(f, o) else None)]
        else p.continuations);
    if p.running
    then WithWorker(settled, f.kind, Worker(false, Some(p.nextId), None)).(
           armed := p.armed[p.nextId := f.kind], nextId := p.nextId + 1)
    else WithWorker(settled, f.kind, WorkerOf(p, f.kind).(busy := false, controller := None))
  }

  function AfterFire(p: Page, timer: nat): Page
    requires timer in p.armed
  {
    AfterPoll(p.(armed := p.armed - {timer}), p.armed[timer], None)
  }

  /** The callback after the startup heartbeat: fall back to a price request, or time one. */
  function AfterContinue(p: Page, c: nat): Page
    requires c in p.continuations && p.continuations[c].Ready?
  {
    var k := p.continuations[c];
    var p' := p.(continuations := p.continuations - {c});
    if !p.running || k.owner != p.generation || p.price.handle.Some? then p'
    else if k.delay.None? then AfterPoll(p', Price, None)
    else Timed(p')
  }

  /** The price loop gets a timer whose id is remembered. */
  function Timed(p: Page): Page {
    p.(price := p.price.(handle := Some(p.nextId)), armed := p.armed[p.nextId := Price], nextId := p.nextId + 1)
  }

  datatype Event =
    | Start(hidden: bool)
    | Stop
    | Settle(flight: nat, outcome: Outcome, now: Instant)
    | Fire(timer: nat)
    | Continue(continuation: nat)

  predicate Enabled(p: Page, e: Event) {
    match e
    case Start(_) => true
    case Stop => true
    case Settle(f, _, _) => f in p.flights
    case Fire(t) => t in p.armed
    case Continue(c) => c in p.continuations && p.continuations[c].Ready?
  }

  function Next(p: Page, e: Event): Page
    requires Enabled(p, e)
  {
    match e
    case Start(hidden) => AfterStart(p, hidden)
    case Stop => AfterStop(p)
    case Settle(f, o, now) => AfterSettle(p, f, o, now)
    case Fire(t) => AfterFire(p, t)
    case Continue(c) => AfterContinue(p, c)
  }

  predicate EnabledRun(p: Page, events: seq<Event>)
    decreases |events|
  {
    events == [] || (Enabled(p, events[0]) && EnabledRun(Next(p, events[0]), events[1..]))
  }

  function Exec(p: Page, events: seq<Event>): Page
    requires EnabledRun(p, events)
    decreases |events|
  {
    if events == [] then p else Exec(Next(p, events[0]), events[1..])
  }

  // ---- The loop invariant -----------------------------------------------------------

  /** A worker is busy exactly while one request of its kind, the one it can abort, is in flight. */
  ghost predicate OneFlight(p: Page) {
    && (p.presence.busy <==> p.presence.controller.Some?)
    && (p.price.busy <==> p.price.controller.Some?)
    && (forall f :: f in p.flights ==> f < p.nextId && WorkerOf(p, p.flights[f].kind).controller == Some(f))
    && (p.presence.controller.Some? ==> Flies(p, p.presence.controller.value, Presence))
    && (p.price.controller.Some? ==> Flies(p, p.price.controller.value, Price))
  }

  predicate Flies(p: Page, f: nat, k: Kind) {
    f in p.flights && p.flights[f].kind == k
  }

  predicate Armed(p: Page, t: nat, k: Kind) {
    t in p.armed && p.armed[t] == k
  }

  /** Timers: the presence timer is always the remembered one, and a remembered price timer
      that has already fired is remembered only while a request is in flight. */
  ghost predicate Timers(p: Page) {
    && (forall t :: t in p.armed ==> t < p.nextId)
    && (forall t: nat :: Armed(p, t, Presence) ==> p.presence.handle == Some(t))
    && (p.presence.handle.Some? ==> Armed(p, p.presence.handle.value, Presence) && !p.presence.busy)
    && (p.price.handle.Some? ==>
          p.price.handle.value < p.nextId && (Armed(p, p.price.handle.value, Price) || p.price.busy))
    && (p.price.handle.Some? ==> !Armed(p, p.price.handle.value, Presence))
    && (!p.running ==> p.presence.handle.None? && p.price.handle.None?)
  }

  predicate PendingStart(p: Page) {
    exists c :: c in p.continuations && p.continuations[c].owner == p.generation
  }

  /** While running, the presence loop is busy or timed, and the price loop is busy, timed or
      about to be started. */
  ghost predicate Alive(p: Page) {
    p.running ==>
      && (p.presence.busy || p.presence.handle.Some?)
      && (p.price.busy || p.price.handle.Some? || PendingStart(p))
  }

  /** Waiting continuations belong to a request that is still in flight. */
  ghost predicate Awaited(p: Page) {
    && (forall c :: c in p.continuations ==> c < p.nextId && p.continuations[c].owner <= p.generation)
    && (forall c :: c in p.continuations && p.continuations[c].Waiting? ==>
          var f := p.continuations[c].flight;
          f in p.flights && p.flights[f].startup == Some(c))
  }

  ghost predicate Inv(p: Page) {
    OneFlight(p) && Timers(p) && Alive(p) && Awaited(p)
  }

  lemma {:induction false} InitialInv()
    ensures Inv(INITIAL)
  {
  }

  lemma {:induction false} StartKeepsFlights(p: Page, hidden: bool)
    requires Inv(p)
    ensures OneFlight(AfterStart(p, hidden)) && Awaited(AfterStart(p, hidden))
  {
  }

  lemma {:induction false} StartKeepsTimers(p: Page, hidden: bool)
    requires Inv(p)
    ensures Timers(AfterStart(p, hidden)) && Alive(AfterStart(p, hidden))
  {
    if !p.running && !hidden {
      assert p.nextId in AfterStart(p, hidden).continuations;
    }
  }

  lemma {:induction false} StopKeeps(p: Page)
    requires Inv(p)
    ensures Inv(AfterStop(p))
  {
  }

  lemma {:induction false} SettleKeepsFlights(p: Page, f: nat, o: Outcome, now: Instant)
    requires Inv(p) && f in p.flights
    ensures OneFlight(AfterSettle(p, f, o, now))
  {
  }

  lemma {:induction false} SettleKeepsAwaited(p: Page, f: nat, o: Outcome, now: Instant)
    requires Inv(p) && f in p.flights
    ensures Awaited(AfterSettle(p, f, o, now))
  {
  }

  lemma {:induction false} SettleKeepsTimers(p: Page, f: nat, o: Outcome, now: Instant)
    requires Inv(p) && f in p.flights
    ensures Timers(AfterSettle(p, f, o, now))
  {
  }

  lemma {:induction false} SettleKeepsAlive(p: Page, f: nat, o: Outcome, now: Instant)
    requires Inv(p) && f in p.flights
    ensures Alive(AfterSettle(p, f, o, now))
  {
    var p' := AfterSettle(p, f, o, now);
    if PendingStart(p) {
      var c :| c in p.continuations && p.continuations[c].owner == p.generation;
      assert c in p'.continuations && p'.continuations[c].owner == p'.generation;
    }
  }

  lemma {:induction false} FireKeepsFlights(p: Page, t: nat)
    requires Inv(p) && t in p.armed
    ensures OneFlight(AfterFire(p, t)) && Awaited(AfterFire(p, t))
  {
  }

  lemma {:induction false} FireKeepsTimers(p: Page, t: nat)
    requires Inv(p) && t in p.armed
    ensures Timers(AfterFire(p, t))
  {
  }

  lemma {:induction false} FireKeepsAlive(p: Page, t: nat)
    requires Inv(p) && t in p.armed
    ensures Alive(AfterFire(p, t))
  {
    var p' := AfterFire(p, t);
    if PendingStart(p) {
      var c :| c in p.continuations && p.continuations[c].owner == p.generation;
      assert c in p'.continuations && p'.continuations[c].owner == p'.generation;
    }
  }

  lemma {:induction false} ContinueKeepsFlights(p: Page, c: nat)
    requires Inv(p) && c in p.continuations && p.continuations[c].Ready?
    ensures OneFlight(AfterContinue(p, c)) && Awaited(AfterContinue(p, c))
  {
  }

  lemma {:induction false} ContinueKeepsTimers(p: Page, c: nat)
    requires Inv(p) && c in p.continuations && p.continuations[c].Ready?
    ensures Timers(AfterContinue(p, c))
  {
  }

  lemma {:induction false} ContinueKeepsAlive(p: Page, c: nat)
    requires Inv(p) && c in p.continuations && p.continuations[c].Ready?
    ensures Alive(AfterContinue(p, c))
  {
    var p' := p.(continuations := p.continuations - {c});
    if PendingStart(p) && p.continuations[c].owner != p.generation {
      var d :| d in p.continuations && p.continuations[d].owner == p.generation;
      assert d in p'.continuations;
    }
  }

  lemma {:induction false} InvNext(p: Page, e: Event)
    requires Inv(p) && Enabled(p, e)
    ensures Inv(Next(p, e))
  {
    match e
    case Start(hidden) =>
      StartKeepsFlights(p, hidden);
      StartKeepsTimers(p, hidden);
    case Stop => StopKeeps(p);
    case Settle(f, o, now) =>
      SettleKeepsFlights(p, f, o, now);
      SettleKeepsAwaited(p, f, o, now);
      SettleKeepsTimers(p, f, o, now);
      SettleKeepsAlive(p, f, o, now);
    case Fire(t) =>
      FireKeepsFlights(p, t);
      FireKeepsTimers(p, t);
      FireKeepsAlive(p, t);
    case Continue(c) =>
      ContinueKeepsFlights(p, c);
      ContinueKeepsTimers(p, c);
      ContinueKeepsAlive(p, c);
  }

  lemma {:induction false} ExecKeepsInv(p: Page, events: seq<Event>)
    requires Inv(p) && EnabledRun(p, events)
    ensures Inv(Exec(p, events))
    decreases |events|
  {
    if events != [] {
      InvNext(p, events[0]);
      ExecKeepsInv(Next(p, events[0]), events[1..]);
    }
  }

  /** Nothing is assumed about the order of events: every request may settle with any outcome,
      every armed timer fire, every resolved startup continue, and the page be shown or
      hidden at any time. */
  lemma {:induction false} AnythingMayHappen(p: Page, id: nat, o: Outcome, now: Instant, hidden: bool)
    ensures Enabled(p, Start(hidden)) && Enabled(p, Stop)
    ensures id in p.flights ==> Enabled(p, Settle(id, o, now))
    ensures id in p.armed ==> Enabled(p, Fire(id))
    ensures id in p.continuations && p.continuations[id].Ready? ==> Enabled(p, Continue(id))
  {
  }

  // ---- What the invariant means ----------------------------------------------------------

  /** In every run of hides, shows, timeouts, responses and late completions: at most one
      request per worker is in flight; while running no loop is dead; and the presence loop
      is exactly one request or one timer. */
  lemma {:induction false} LoopsNeverDie(events: seq<Event>, f: nat, g: nat, t: nat)
    requires EnabledRun(INITIAL, events)
    ensures var p := Exec(INITIAL, events);
            && (f in p.flights && g in p.flights && p.flights[f].kind == p.flights[g].kind ==> f == g)
            && (p.running ==>
                  && (p.presence.busy <==> p.presence.handle.None?)
                  && (p.presence.handle.Some? ==> Armed(p, p.presence.handle.value, Presence))
                  && (Armed(p, t, Presence) ==> p.presence.handle == Some(t))
                  && (p.price.busy || PendingStart(p)
                      || (p.price.handle.Some? && Armed(p, p.price.handle.value, Price))))
  {
    InitialInv();
    ExecKeepsInv(INITIAL, events);
  }

  /** Only a response of the current generation of a visible page changes the data or errors. */
  lemma {:induction false} OnlyCurrentResponsesShow(p: Page, e: Event)
    requires Enabled(p, e)
    requires !(e.Settle? && p.running && p.flights[e.flight].owner == p.generation)
    ensures Next(p, e).shown == p.shown
  {
  }

  /** An unavailable response while quotes are held. */
  predicate Retains(s: Shown, data: Data) {
    data.unavailable && s.lastData.Some? && s.lastData.value.hasSources
  }

  /** A current price response replaces the data and their time and clears the error, unless
      it is an unavailable one met while quotes are held: then data and time stay and the
      error is set. A failed one sets the error and keeps the data. */
  lemma {:induction false} PriceSettlement(p: Page, f: nat, o: Outcome, now: Instant)
    requires f in p.flights && p.flights[f].kind == Price
    requires p.running && p.flights[f].owner == p.generation
    ensures var s, s' := p.shown, Next(p, Settle(f, o, now)).shown;
            && (o.PriceOk? && !Retains(s, o.data) ==>
                  s'.lastData == Some(o.data) && s'.receivedAt == now && !s'.priceError)
            && (!o.PriceOk? || Retains(s, o.data) ==>
                  s'.lastData == s.lastData && s'.receivedAt == s.receivedAt && s'.priceError)
            && s'.presenceError == s.presenceError
  {
  }

  /** A current heartbeat sets the viewer error exactly when it failed. Only the one that
      starts a visible period touches the price: its price counts like a price response,
      and an invalid one sets the price error. */
  lemma {:induction false} HeartbeatSettlement(p: Page, f: nat, o: Outcome, now: Instant)
    requires f in p.flights && p.flights[f].kind == Presence
    requires p.running && p.flights[f].owner == p.generation
    ensures var s, s', first := p.shown, Next(p, Settle(f, o, now)).shown, p.flights[f].startup.Some?;
            && s'.presenceError == o.Failed?
            && (first && o.HeartbeatPrice? && !Retains(s, o.data) ==>
                  s'.lastData == Some(o.data) && s'.receivedAt == now && !s'.priceError)
            && (first && o.HeartbeatPrice? && Retains(s, o.data) ==>
                  s'.lastData == s.lastData && s'.receivedAt == s.receivedAt && s'.priceError)
            && (!(first && o.HeartbeatPrice?) ==>
                  && s'.lastData == s.lastData && s'.receivedAt == s.receivedAt
                  && s'.priceError == (s.priceError || (first && o.HeartbeatInvalidPrice?)))
  {
  }

  /** The startup continuation learns when to ask for a price: soon while the server refreshes,
      at the usual pace after a price, and at once without one. */
  lemma {:induction false} StartupResolved(p: Page, f: nat, o: Outcome, now: Instant)
    requires Inv(p) && f in p.flights && p.flights[f].startup.Some?
    requires p.flights[f].startup.value in p.continuations
    ensures var c := p.flights[f].startup.value;
            var current := p.running && p.flights[f].owner == p.generation && p.flights[f].kind == Presence;
            Next(p, Settle(f, o, now)).continuations[c]
            == Ready(p.continuations[c].owner,
                     if !current || !o.HeartbeatPrice? then None
                     else if o.data.refreshing then Some(1000) else Some(5000))
  {
  }

  predicate Holds(s: Shown) {
    s.lastData.Some? && s.lastData.value.hasSources
  }

  /** Responses that are not unavailable carry quotes, as those of the server do. */
  predicate Sourced(e: Event) {
    && (e.Settle? && e.outcome.PriceOk? && !e.outcome.data.unavailable ==> e.outcome.data.hasSources)
    && (e.Settle? && e.outcome.HeartbeatPrice? && !e.outcome.data.unavailable ==> e.outcome.data.hasSources)
  }

  /** In every run, once quotes are held they stay until a response that is not unavailable
      replaces them by its own. */
  lemma {:induction false} QuotesHeld(p: Page, events: seq<Event>)
    requires EnabledRun(p, events) && Holds(p.shown) && forall e :: e in events ==> Sourced(e)
    ensures var s' := Exec(p, events).shown;
            Holds(s') && (s'.lastData == p.shown.lastData || !s'.lastData.value.unavailable)
    decreases |events|
  {
    if events != [] {
      assert events[0] in events && forall e :: e in events[1..] ==> e in events;
      HeldStep(p, events[0]);
      QuotesHeld(Next(p, events[0]), events[1..]);
    }
  }

  lemma {:induction false} HeldStep(p: Page, e: Event)
    requires Enabled(p, e) && Holds(p.shown) && Sourced(e)
    ensures var s' := Next(p, e).shown;
            Holds(s') && (s'.lastData == p.shown.lastData || !s'.lastData.value.unavailable)
  {
    if !(e.Settle? && Current(p, p.flights[e.flight])) {
      OnlyCurrentResponsesShow(p, e);
    } else if p.flights[e.flight].kind == Price {
      PriceSettlement(p, e.flight, e.outcome, e.now);
    } else {
      HeartbeatSettlement(p, e.flight, e.outcome, e.now);
    }
  }

  /** A request started before the page was last hidden is never current again. */
  lemma {:induction false} LateResponsesIgnored(p: Page, events: seq<Event>, f: nat)
    requires EnabledRun(p, events) && f in p.flights && p.flights[f].owner <= p.generation && f < p.nextId
    requires !Current(p, p.flights[f])
    ensures var p' := Exec(p, events);
            f in p'.flights ==> p'.flights[f] == p.flights[f] && !(p'.running && p'.flights[f].owner == p'.generation)
    decreases |events|
  {
    if events != [] {
      var p' := Next(p, events[0]);
      LateStep(p, events[0], f);
      if f in p'.flights {
        LateResponsesIgnored(p', events[1..], f);
      } else {
        GoneForGood(p', events[1..], f);
      }
    }
  }

  lemma {:induction false} LateStep(p: Page, e: Event, f: nat)
    requires Enabled(p, e) && f in p.flights && p.flights[f].owner <= p.generation && f < p.nextId
    requires !Current(p, p.flights[f])
    ensures var p' := Next(p, e);
            && f < p'.nextId
            && (f in p'.flights ==>
                  p'.flights[f] == p.flights[f] && p'.flights[f].owner <= p'.generation && !Current(p', p'.flights[f]))
  {
  }

  lemma {:induction false} GoneForGood(p: Page, events: seq<Event>, f: nat)
    requires EnabledRun(p, events) && f !in p.flights && f < p.nextId
    ensures f !in Exec(p, events).flights
    decreases |events|
  {
    if events != [] {
      GoneStep(p, events[0], f);
      GoneForGood(Next(p, events[0]), events[1..], f);
    }
  }

  lemma {:induction false} GoneStep(p: Page, e: Event, f: nat)
    requires Enabled(p, e) && f !in p.flights && f < p.nextId
    ensures f !in Next(p, e).flights && f < Next(p, e).nextId
  {
  }

  // ---- Price loops do not multiply ---------------------------------------------------------

  function PriceTimers(p: Page): set<nat> {
    set t | t in p.armed && p.armed[t] == Price
  }

  function PendingStarts(p: Page): set<nat> {
    set c | c in p.continuations && p.continuations[c].owner == p.generation
  }

  /** Everything that can still lead to a price request of the current period. */
  function PriceLoops(p: Page): nat {
    |PriceTimers(p)| + |PendingStarts(p)| + if p.price.busy then 1 else 0
  }

  /** A poll turns what it clears and consumes into one request at most. */
  lemma {:induction false} PollLoops(p: Page, k: Kind)
    ensures var p' := AfterPoll(p, k, None);
            && PendingStarts(p') == PendingStarts(p)
            && PriceTimers(p') <= PriceTimers(p)
            && PriceLoops(p') <= PriceLoops(p) + (if k.Price? then 1 else 0)
            && (k.Price? && p.price.busy ==> PriceLoops(p') == PriceLoops(p))
  {
    var p' := AfterPoll(p, k, None);
    SubsetSize(PriceTimers(p'), PriceTimers(p));
  }

  lemma {:induction false} FireLoops(p: Page, t: nat)
    requires Inv(p) && t in p.armed
    ensures PriceLoops(AfterFire(p, t)) <= PriceLoops(p)
  {
    var fired := p.(armed := p.armed - {t});
    assert PendingStarts(fired) == PendingStarts(p);
    assert PriceTimers(fired) == PriceTimers(p) - {t};
    if p.armed[t].Price? {
      RemoveOne(PriceTimers(p), t);
    } else {
      SubsetSize(PriceTimers(fired), PriceTimers(p));
    }
    PollLoops(fired, p.armed[t]);
  }

  lemma {:induction false} SettlePending(p: Page, f: nat, o: Outcome, now: Instant)
    requires f in p.flights
    ensures PendingStarts(AfterSettle(p, f, o, now)) == PendingStarts(p)
  {
  }

  lemma {:induction false} SettleTimers(p: Page, f: nat, o: Outcome, now: Instant)
    requires f in p.flights
    ensures PriceTimers(AfterSettle(p, f, o, now))
            <= if p.running && p.flights[f].kind.Price? then PriceTimers(p) + {p.nextId} else PriceTimers(p)
  {
  }

  lemma {:induction false} SettleLoops(p: Page, f: nat, o: Outcome, now: Instant)
    requires Inv(p) && f in p.flights
    ensures PriceLoops(AfterSettle(p, f, o, now)) <= PriceLoops(p)
  {
    SettlePending(p, f, o, now);
    SettleTimers(p, f, o, now);
    SubsetSize(PriceTimers(AfterSettle(p, f, o, now)),
               if p.running && p.flights[f].kind.Price? then PriceTimers(p) + {p.nextId} else PriceTimers(p));
    if p.flights[f].kind.Price? {
      assert p.price.busy && !AfterSettle(p, f, o, now).price.busy;
    }
  }

  lemma {:induction false} ContinueLoops(p: Page, c: nat)
    requires Inv(p) && c in p.continuations && p.continuations[c].Ready?
    ensures PriceLoops(AfterContinue(p, c)) <= PriceLoops(p)
  {
    var p' := p.(continuations := p.continuations - {c});
    assert PriceTimers(p') == PriceTimers(p) && PendingStarts(p') == PendingStarts(p) - {c};
    if p.continuations[c].owner == p.generation {
      RemoveOne(PendingStarts(p), c);
      PollLoops(p', Price);
      TimedLoops(p');
    } else {
      SubsetSize(PendingStarts(p'), PendingStarts(p));
    }
  }

  /** Arming a timer adds one loop. */
  lemma {:induction false} TimedLoops(p: Page)
    ensures PriceLoops(Timed(p)) <= PriceLoops(p) + 1
  {
    assert PendingStarts(Timed(p)) == PendingStarts(p);
    SubsetSize(PriceTimers(Timed(p)), PriceTimers(p) + {p.nextId});
  }

  lemma {:induction false} StopLoops(p: Page)
    requires Inv(p)
    ensures PriceLoops(AfterStop(p)) <= PriceLoops(p)
  {
    SubsetSize(PriceTimers(AfterStop(p)), PriceTimers(p));
    if p.running {
      assert PendingStarts(AfterStop(p)) == {};
    }
  }

  lemma {:induction false} StartLoops(p: Page, hidden: bool)
    requires Inv(p)
    ensures PriceLoops(AfterStart(p, hidden)) <= PriceLoops(p) + if Shows(p, Start(hidden)) then 1 else 0
  {
    var p' := AfterStart(p, hidden);
    if !p.running && !hidden {
      assert PendingStarts(p') == {p.nextId};
      SubsetSize(PriceTimers(p'), PriceTimers(p));
    }
  }

  /** The page becomes visible: a start that does something. */
  predicate Shows(p: Page, e: Event) {
    e.Start? && !p.running && !e.hidden
  }

  /** Overwritten handles leave timers behind, yet requests, timers and pending starts
      together grow only when the page is shown, and then by one. */
  lemma {:induction false} LoopsNeverMultiply(p: Page, e: Event)
    requires Inv(p) && Enabled(p, e)
    ensures PriceLoops(Next(p, e)) <= PriceLoops(p) + (if Shows(p, e) then 1 else 0)
  {
    match e
    case Start(hidden) => StartLoops(p, hidden);
    case Stop => StopLoops(p);
    case Settle(f, o, now) => SettleLoops(p, f, o, now);
    case Fire(t) => FireLoops(p, t);
    case Continue(c) => ContinueLoops(p, c);
  }

  // ---- Exactly when a second price timer exists ------------------------------------------------

  function Remembered(p: Page): set<nat> {
    if p.price.handle.Some? then {p.price.handle.value} else {}
  }

  /** Armed price timers whose handle has been overwritten. */
  function Strays(p: Page): set<nat> {
    PriceTimers(p) - Remembered(p)
  }

  /** The only armed price timer is the remembered one. */
  ghost predicate Single(p: Page) {
    forall t: nat :: Armed(p, t, Price) ==> p.price.handle == Some(t)
  }

  lemma {:induction false} SingleMeansNoStrays(p: Page)
    ensures Single(p) <==> |Strays(p)| == 0
  {
    if |Strays(p)| == 0 {
      assert Strays(p) == {};
      forall t: nat | Armed(p, t, Price) ensures p.price.handle == Some(t) {
        assert t in PriceTimers(p);
      }
    }
    if Single(p) {
      forall t | t in PriceTimers(p) ensures t in Remembered(p) { assert Armed(p, t, Price); }
      assert Strays(p) == {};
    }
  }

  /** A price request settles although the startup heartbeat has already timed the next one. */
  predicate Overwrites(p: Page, e: Event)
    requires Enabled(p, e)
  {
    && e.Settle? && p.flights[e.flight].kind.Price? && p.running
    && p.price.handle.Some? && Armed(p, p.price.handle.value, Price)
  }

  predicate FiresStray(p: Page, e: Event)
    requires Enabled(p, e)
  {
    e.Fire? && e.timer in Strays(p)
  }

  /** An overwrite adds the old timer, a stray that fires is gone, and nothing else matters. */
  lemma {:induction false} StraysExactly(p: Page, e: Event)
    requires Inv(p) && Enabled(p, e)
    ensures Strays(Next(p, e)) ==
            if Overwrites(p, e) then Strays(p) + Remembered(p)
            else if FiresStray(p, e) then Strays(p) - {e.timer}
            else Strays(p)
  {
    match e
    case Start(hidden) =>
    case Stop =>
    case Settle(f, o, now) => StraysAfterSettle(p, f, o, now);
    case Fire(t) =>
    case Continue(c) =>
  }

  lemma {:induction false} StraysAfterSettle(p: Page, f: nat, o: Outcome, now: Instant)
    requires Inv(p) && f in p.flights
    ensures Strays(AfterSettle(p, f, o, now)) ==
            if Overwrites(p, Settle(f, o, now)) then Strays(p) + Remembered(p) else Strays(p)
  {
    var p' := AfterSettle(p, f, o, now);
    if p.running {
      assert p.nextId !in p.armed;
      assert PriceTimers(p') == if p.flights[f].kind.Price? then PriceTimers(p) + {p.nextId} else PriceTimers(p);
    } else {
      assert PriceTimers(p') == PriceTimers(p);
    }
  }

  /** From a page with one price timer, a second one arises exactly by an overwrite. */
  lemma {:induction false} SingleExactly(p: Page, e: Event)
    requires Inv(p) && Enabled(p, e) && Single(p)
    ensures Single(Next(p, e)) <==> !Overwrites(p, e)
  {
    StraysExactly(p, e);
    SingleMeansNoStrays(p);
    SingleMeansNoStrays(Next(p, e));
    assert Strays(p) == {};
  }

  /** One event's share in the count of strays. */
  lemma {:induction false} StrayCount(p: Page, e: Event)
    requires Inv(p) && Enabled(p, e)
    ensures |Strays(Next(p, e))| + (if FiresStray(p, e) then 1 else 0)
            == |Strays(p)| + (if Overwrites(p, e) then 1 else 0)
  {
    StraysExactly(p, e);
    if Overwrites(p, e) {
      assert Strays(p) !! Remembered(p);
    } else if FiresStray(p, e) {
      RemoveOne(Strays(p), e.timer);
    }
  }

  function OverwritesIn(p: Page, events: seq<Event>): nat
    requires EnabledRun(p, events)
    decreases |events|
  {
    if events == [] then 0
    else OverwritesIn(Next(p, events[0]), events[1..]) + if Overwrites(p, events[0]) then 1 else 0
  }

  function StraysFiredIn(p: Page, events: seq<Event>): nat
    requires EnabledRun(p, events)
    decreases |events|
  {
    if events == [] then 0
    else StraysFiredIn(Next(p, events[0]), events[1..]) + if FiresStray(p, events[0]) then 1 else 0
  }

  lemma {:induction false} StraysBalance(p: Page, events: seq<Event>)
    requires Inv(p) && EnabledRun(p, events)
    ensures |Strays(Exec(p, events))| + StraysFiredIn(p, events) == |Strays(p)| + OverwritesIn(p, events)
    decreases |events|
  {
    if events != [] {
      StrayCount(p, events[0]);
      InvNext(p, events[0]);
      StraysBalance(Next(p, events[0]), events[1..]);
    }
  }

  /** After any run there is no second price timer exactly when as many strays have fired
      as handles were overwritten. */
  lemma {:induction false} SingleAfterRun(events: seq<Event>)
    requires EnabledRun(INITIAL, events)
    ensures Single(Exec(INITIAL, events)) <==> OverwritesIn(INITIAL, events) == StraysFiredIn(INITIAL, events)
  {
    InitialInv();
    StraysBalance(INITIAL, events);
    assert Strays(INITIAL) == {};
    SingleMeansNoStrays(Exec(INITIAL, events));
  }

  ghost predicate SingleThroughout(p: Page, events: seq<Event>)
    requires EnabledRun(p, events)
    decreases |events|
  {
    Single(p) && (events == [] || SingleThroughout(Next(p, events[0]), events[1..]))
  }

  /** A run never has a second price timer exactly when it never overwrites a handle. */
  lemma {:induction false} SingleThroughoutExactly(p: Page, events: seq<Event>)
    requires Inv(p) && EnabledRun(p, events) && Single(p)
    ensures SingleThroughout(p, events) <==> OverwritesIn(p, events) == 0
    decreases |events|
  {
    if events != [] {
      var p' := Next(p, events[0]);
      SingleExactly(p, events[0]);
      InvNext(p, events[0]);
      if Single(p') { SingleThroughoutExactly(p', events[1..]); }
    }
  }

  // ---- A doubled loop collapses ----------------------------------------------------------------

  /** A stray timer fires after the startup of the visible period is over, or while hidden. */
  predicate Collapses(p: Page, e: Event)
    requires Enabled(p, e)
  {
    FiresStray(p, e) && (!p.running || !PendingStart(p))
  }

  /** The poll of a stray timer finds the worker busy or takes over the remembered timer. */
  lemma {:induction false} StrayCollapses(p: Page, e: Event)
    requires Inv(p) && Enabled(p, e) && Collapses(p, e)
    ensures PriceLoops(Next(p, e)) < PriceLoops(p)
  {
    var fired := p.(armed := p.armed - {e.timer});
    assert PriceTimers(fired) == PriceTimers(p) - {e.timer};
    RemoveOne(PriceTimers(p), e.timer);
    assert PendingStarts(fired) == PendingStarts(p);
    PollLoops(fired, Price);
    if p.running && !p.price.busy {
      var handle := p.price.handle.value;
      assert handle in PriceTimers(fired);
      assert PriceTimers(Next(p, e)) == PriceTimers(fired) - {handle};
      RemoveOne(PriceTimers(fired), handle);
    }
  }

  function ShowsIn(p: Page, events: seq<Event>): nat
    requires EnabledRun(p, events)
    decreases |events|
  {
    if events == [] then 0 else ShowsIn(Next(p, events[0]), events[1..]) + if Shows(p, events[0]) then 1 else 0
  }

  function CollapsesIn(p: Page, events: seq<Event>): nat
    requires EnabledRun(p, events)
    decreases |events|
  {
    if events == [] then 0
    else CollapsesIn(Next(p, events[0]), events[1..]) + if Collapses(p, events[0]) then 1 else 0
  }

  /** Over every run each show adds at most one loop, and each stray timer that fires after
      the startup takes one away for good. */
  lemma {:induction false} LoopsBounded(p: Page, events: seq<Event>)
    requires Inv(p) && EnabledRun(p, events)
    ensures PriceLoops(Exec(p, events)) + CollapsesIn(p, events) <= PriceLoops(p) + ShowsIn(p, events)
    decreases |events|
  {
    if events != [] {
      LoopsNeverMultiply(p, events[0]);
      if Collapses(p, events[0]) { StrayCollapses(p, events[0]); }
      InvNext(p, events[0]);
      LoopsBounded(Next(p, events[0]), events[1..]);
    }
  }

  /** The case behind this: the startup heartbeat has timed the price loop while an older
      price request is still in flight. When that request settles its handle is overwritten,
      yet the first timer stays armed, and the count above stays the same. */
  lemma {:induction false} OverwrittenTimerStaysArmed(p: Page, e: Event)
    requires Inv(p) && Enabled(p, e) && Overwrites(p, e)
    ensures var p', t := Next(p, e), p.price.handle.value;
            && Armed(p', t, Price)
            && p'.price.handle.Some? && p'.price.handle != Some(t) && Armed(p', p'.price.handle.value, Price)
            && PriceLoops(p') == PriceLoops(p)
  {
    var p' := Next(p, e);
    SettlePending(p, e.flight, e.outcome, e.now);
    assert PriceTimers(p') == PriceTimers(p) + {p.nextId};
  }

  lemma {:induction false} ExecConcat(p: Page, a: seq<Event>, b: seq<Event>)
    requires EnabledRun(p, a) && EnabledRun(Exec(p, a), b)
    ensures EnabledRun(p, a + b) && Exec(p, a + b) == Exec(Exec(p, a), b)
    decreases |a|
  {
    if a == [] {
      assert a + b == b;
    } else {
      assert (a + b)[1..] == a[1..] + b;
      ExecConcat(Next(p, a[0]), a[1..], b);
    }
  }

  /** The page was hidden during the first price request, after `FIRST`. */
  const FIRST: seq<Event> := [Start(false), Settle(1, Failed, 0.0), Continue(0), Stop]

  const HIDDEN: Page :=
    Page(false, 2, Worker(false, None, None), Worker(true, None, Some(3)), map[], map[3 := Flight(Price, 1, None)],
         map[], 4, UNREACHED)

  /** The first heartbeat failed. */
  const UNREACHED: Shown := INITIAL.shown.(presenceError := true)

  lemma {:induction false} FirstPeriod()
    ensures EnabledRun(INITIAL, FIRST) && Exec(INITIAL, FIRST) == HIDDEN
  {
    var p1 := Next(INITIAL, FIRST[0]);
    assert p1 == Page(true, 1, Worker(true, None, Some(1)), Worker(false, None, None), map[],
                      map[1 := Flight(Presence, 1, Some(0))], map[0 := Waiting(1, 1)], 2, INITIAL.shown);
    var p2 := Next(p1, FIRST[1]);
    assert p2 == Page(true, 1, Worker(false, Some(2), None), Worker(false, None, None), map[2 := Presence],
                      map[], map[0 := Ready(1, None)], 3, UNREACHED);
    var p3 := Next(p2, FIRST[2]);
    assert p3 == Page(true, 1, Worker(false, Some(2), None), Worker(true, None, Some(3)), map[2 := Presence],
                      map[3 := Flight(Price, 1, None)], map[], 4, UNREACHED);
    assert Next(p3, FIRST[3]) == HIDDEN;
    ExecFour(INITIAL, FIRST);
  }

  /** It is shown again, the new heartbeat brings a price, and the old request settles. */
  function Second(data: Data): seq<Event> {
    [Start(false), Settle(5, HeartbeatPrice(data), 0.0), Continue(4), Settle(3, Failed, 0.0)]
  }

  lemma {:induction false} SecondPeriod(data: Data)
    ensures EnabledRun(HIDDEN, Second(data))
    ensures var p := Exec(HIDDEN, Second(data));
            p.running && p.armed == map[6 := Presence, 7 := Price, 8 := Price] && p.price.handle == Some(8)
  {
    var events := Second(data);
    var p1 := Next(HIDDEN, events[0]);
    var flights := map[3 := Flight(Price, 1, None)];
    var waits := Worker(true, None, Some(3));
    assert p1 == Page(true, 3, Worker(true, None, Some(5)), waits, map[],
                      flights[5 := Flight(Presence, 3, Some(4))], map[4 := Waiting(3, 5)], 6, UNREACHED);
    var p2 := Next(p1, events[1]);
    var delay := if data.refreshing then REFRESHING_MS else POLL_MS;
    assert p2 == Page(true, 3, Worker(false, Some(6), None), waits, map[6 := Presence],
                      flights, map[4 := Ready(3, Some(delay))], 7, p2.shown);
    var p3 := Next(p2, events[2]);
    assert p3 == Page(true, 3, Worker(false, Some(6), None), waits.(handle := Some(7)),
                      map[6 := Presence, 7 := Price], flights, map[], 8, p2.shown);
    ExecFour(HIDDEN, events);
  }

  lemma {:induction false} ExecFour(p: Page, events: seq<Event>)
    requires |events| == 4 && Enabled(p, events[0])
    requires var p1 := Next(p, events[0]);
             && Enabled(p1, events[1])
             && var p2 := Next(p1, events[1]);
                && Enabled(p2, events[2]) && Enabled(Next(p2, events[2]), events[3])
    ensures EnabledRun(p, events)
    ensures Exec(p, events) == Next(Next(Next(Next(p, events[0]), events[1]), events[2]), events[3])
  {
    var p1 := Next(p, events[0]);
    var p2 := Next(p1, events[1]);
    var p3 := Next(p2, events[2]);
    var p4 := Next(p3, events[3]);
    var rest := events[1..];
    assert rest[1..][1..] == [events[3]] && rest[1..][1..][1..] == [];
    assert rest[0] == events[1] && rest[1..][0] == events[2];
    assert EnabledRun(p4, []) && Exec(p4, []) == p4;
    assert EnabledRun(p3, [events[3]]) && Exec(p3, [events[3]]) == p4;
    assert EnabledRun(p2, rest[1..]) && Exec(p2, rest[1..]) == p4;
  }

  /** Two price timers are reached: hide during the first price request, show again, and let
      the new heartbeat bring a price before the old, aborted request settles. */
  lemma {:induction false} SecondTimerReached(data: Data)
    ensures EnabledRun(INITIAL, FIRST + Second(data))
    ensures var p := Exec(INITIAL, FIRST + Second(data));
            p.running && Armed(p, 7, Price) && Armed(p, 8, Price) && !Single(p)
  {
    FirstPeriod();
    SecondPeriod(data);
    ExecConcat(INITIAL, FIRST, Second(data));
    assert !Single(Exec(HIDDEN, Second(data))) by {
      assert Armed(Exec(HIDDEN, Second(data)), 7, Price);
    }
  }

  // ---- The mutable dashboard -----------------------------------------------------------------

  class Tracker {
    var running: bool
    var generation: nat
    var presence: Worker
    var price: Worker
    var armed: map<nat, Kind>
    var flights: map<nat, Flight>
    var continuations: map<nat, Continuation>
    var nextId: nat
    var shown: Shown

    ghost function View(): Page
      reads this
    {
      Page(running, generation, presence, price, armed, flights, continuations, nextId, shown)
    }

    constructor ()
      ensures View() == INITIAL
    {
      running, generation, nextId := false, 0, 0;
      presence, price := Worker(false, None, None), Worker(false, None, None);
      armed, flights, continuations := map[], map[], map[];
      shown := Shown(None, 0.0, false, false);
    }

    method SetWorker(k: Kind, w: Worker)
      modifies this`presence, this`price
      ensures View() == WithWorker(old(View()), k, w)
    {
      if k.Presence? {
        presence := w;
      } else {
        price := w;
      }
    }

    method ClearTimer(handle: Option<nat>)
      modifies this`armed
      ensures armed == Cleared(old(armed), handle)
    {
      if handle.Some? {
        armed := armed - {handle.value};
      }
    }

    method SetTimer(k: Kind) returns (handle: nat)
      modifies this`armed, this`nextId
      ensures handle == old(nextId) && nextId == handle + 1 && armed == old(armed)[handle := k]
    {
      handle := nextId;
      armed := armed[handle := k];
      nextId := nextId + 1;
    }

    method Poll(k: Kind, startup: Option<nat>)
      modifies this
      ensures View() == AfterPoll(old(View()), k, startup)
    {
      var worker := if k.Presence? then presence else price;
      if !running || worker.busy {
        return;
      }
      ClearTimer(worker.handle);
      flights := flights[nextId := Flight(k, generation, startup)];
      SetWorker(k, Worker(true, None, Some(nextId)));
      nextId := nextId + 1;
    }

    method Start(hidden: bool)
      modifies this
      ensures View() == AfterStart(old(View()), hidden)
    {
      if running || hidden {
        return;
      }
      running := true;
      generation := generation + 1;
      var c := nextId;
      var continuation := if presence.busy then Ready(generation, None) else Waiting(generation, c + 1);
      continuations := continuations[c := continuation];
      nextId := nextId + 1;
      Poll(Presence, Some(c));
    }

    method Stop()
      modifies this
      ensures View() == AfterStop(old(View()))
    {
      if !running {
        return;
      }
      running := false;
      generation := generation + 1;
      ClearTimer(presence.handle);
      presence := presence.(handle := None);
      ClearTimer(price.handle);
      price := price.(handle := None);
    }

    method Settle(id: nat, outcome: Outcome, now: Instant)
      requires id in flights
      modifies this
      ensures View() == AfterSettle(old(View()), id, outcome, now)
    {
      var f := flights[id];
      var delay: Option<nat> := None;
      if running && f.owner == generation {
        shown := Applied(shown, f, outcome, now);
        delay := StartupDelay(f, outcome);
      }
      flights := flights - {id};
      var worker := if f.kind.Presence? then presence else price;
      SetWorker(f.kind, worker.(busy := false, controller := None));
      if running {
        var handle := SetTimer(f.kind);
        SetWorker(f.kind, Worker(false, Some(handle), None));
      }
      ResolveStartup(f.startup, delay);
    }

    /** The promise of a startup heartbeat resolves with its delay. */
    method ResolveStartup(startup: Option<nat>, delay: Option<nat>)
      modifies this`continuations
      ensures continuations ==
              if startup.Some? && startup.value in old(continuations)
              then old(continuations)[startup.value := Ready(old(continuations)[startup.value].owner, delay)]
              else old(continuations)
    {
      if startup.Some? && startup.value in continuations {
        continuations := continuations[startup.value := Ready(continuations[startup.value].owner, delay)];
      }
    }

    method Fire(timer: nat)
      requires timer in armed
      modifies this
      ensures View() == AfterFire(old(View()), timer)
    {
      var k := armed[timer];
      armed := armed - {timer};
      Poll(k, None);
    }

    method Continue(c: nat)
      requires c in continuations && continuations[c].Ready?
      modifies this
      ensures View() == AfterContinue(old(View()), c)
    {
      var k := continuations[c];
      continuations := continuations - {c};
      if !running || k.owner != generation || price.handle.Some? {
        return;
      }
      if k.delay.None? {
        Poll(Price, None);
      } else {
        var handle := SetTimer(Price);
        price := price.(handle := Some(handle));
      }
    }
  }
}
