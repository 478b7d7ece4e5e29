# Verified model of the Bitcoin price tracker

This project models the price-refresh service and its dashboard in Dafny and proves
what they promise over whole runs. Check it with `dafny verify dfyconfig.toml`.

The centre is the refresh protocol: request handlers race for one refresh guard, read
the stored state, pass the gates and hand the guard to a background task, which
rechecks, fetches, merges, stores, completes and releases. The parts are:

| file | content |
|---|---|
| `Common.dfy`, `Providers.dfy`, `Names.dfy`, `Errors.dfy` | options and results, the four providers, the listing order, typed failures and retry hints |
| `Refresh.dfy` | the scheduler object `RefreshCoordinator` and the functions that specify it |
| `RefreshRuns.dfy` | whole runs of the scheduler: backoff, hints, cadence, fairness, activations |
| `Presence.dfy` | the viewer map against the plain history of calls |
| `Pricing.dfy`, `Batches.dfy` | merging quotes; batches built from fetch outcomes; folds over committed batches |
| `Protocol.dfy`, `ProtocolProofs.dfy` | the interleaved world of handlers, tasks, clock, shutdown and restarts, and its invariants |
| `Activations.dfy` | which plans are full, and which single plan may miss the newest activation |
| `Outcomes.dfy` | what a task stores and reports after its fetches, in every interleaving |
| `Audiences.dfy` | the protocol's gates in terms of the presence calls a process received |
| `Storage.dfy`, `StorageRefinement.dfy` | constrained tables, failing transactions, pruning, migration; the tables implement the protocol's stored state |
| `Averages.dfy`, `Freshness.dfy`, `Handlers.dfy` | the incremental mean, the evaluation of quotes, the price response |
| `Client.dfy`, `ShownWorlds.dfy` | what the dashboard derives between responses, compared with what the server would say, for any rows and for those the protocol stores |
| `Dashboard.dfy`, `Feed.dfy` | the dashboard's polling loops and the headline loop |
| `Limits.dfy` | the token bucket |
| `Closure.dfy` | the retained-library worklist |

Mutable objects of the source are classes whose methods are proved equal to a
specification function; runs and theorems are about those functions. The protocol is a
state machine with one step per await point or shared access, so handlers, tasks, the
clock and shutdown interleave freely, and a crash may happen between any two steps.

Conventions. Instants are real seconds of the monotonic clock. Prices are reals; a price
that is not positive stands for every invalid price, NaN and infinities included. A fetch
is an arbitrary outcome at an arbitrary later time. `horizon` is the last representable
instant; only retry hints are tested against it, as in the source. Every lemma switches
automatic induction off, so that its proof is the one written.

Where the code and a natural expectation differ:

- An activation published between a request's load of the generation and its call for a
  plan (src/handlers.rs:117-118) is not seen by that plan. `ActivationMissed` reaches such
  a world; `FullExactly` says when a plan is full and when it misses an activation;
  `AtMostOneMiss` shows that over any run only the one request already past its load can
  miss it, and `ActivationServed` that all others are served.
- A provider answering with an HTTP status from 600 to 999 makes the health row fail its
  CHECK, so the whole transaction is rejected, quotes of the other providers included.
  The documented atomicity holds; `BatchAcceptedExactly` gives the exact condition.
- With several rows of one provider and equal observation times the server uses the last
  and the dashboard the first: `TiesDiffer` shows a stored state where the averages differ.
  Only rows that no merge wrote can tie (`TiedIsNotMerged`, `StoredOrdered`), and migrated
  rows cannot, for they carry no observation time (`MigratedQuotesDecode`): it takes rows
  with times that something other than this program put into the database.
  `AgreementExactly` gives the exact condition for agreement at all later times.
- Clock readings may reach the token bucket out of order (src/limits.rs:86). Then no bound
  in terms of the span of the readings exists (`OutOfOrderExceedsSpan`).
  `WindowsBoundedExactly` shows that every window is bounded by its first and last reading
  exactly when the readings are in order; `AnyOrderBound` holds for any order.
- A price timer's handle can be overwritten while armed, so two price timers may coexist:
  `SecondTimerReached` is such a run. It needs a request aborted by hiding the page to
  settle only after the whole round trip of the heartbeat sent on the next show. `SingleExactly` gives the one step that causes it,
  `StraysBalance` counts the extra timers of any run exactly, and `StrayCollapses` shows
  that an extra timer that fires merges into the other loop instead of adding requests.
- Of two library files with one base name the one found first is neither kept nor removed
  (`NamesakeStays`); `RemovesExactlyUnneeded` gives the exact condition.

## Model

| member | source | states |
|---|---|---|
| Refresh.BeginMeaning | src/refresh.rs:27-75 | a refusal changes nothing and happens exactly when the ten-second gate is closed or every provider is cooling; a full plan is all eligible providers in configured order without duplicates; an ordinary plan is the single eligible provider nearest in the rotation |
| Refresh.TurnPasses | src/refresh.rs:62-69 | after every plan, full or ordinary, its last provider has the longest way to go and the one behind it is next |
| Refresh.FullScan | src/refresh.rs:44-56 | the full scan lists each eligible provider once, in order |
| Refresh.OrdinaryScan | src/refresh.rs:44-56 | the ordinary scan stops at the first eligible provider of the rotation |
| Refresh.RefreshCoordinator.Begin | src/refresh.rs:27-75 | the loops compute exactly the specified plan and new state |
| Refresh.RefreshCoordinator.Complete | src/refresh.rs:77-124 | the loop computes exactly the specified counters, deadlines and acknowledged generation |
| Refresh.Deadline | src/refresh.rs:92-113 | no hint, representable or not, shortens the backoff; `RefreshRuns.DueAfterFailure` gives the exact deadline |
| Errors.HintReachesDate | src/refresh.rs:98-104 | a dated hint waits the shortest time that reaches the date |
| Errors.HintMeaning | src/refresh.rs:93-107 | a failure asks for s seconds exactly when it names that delay, or a date that s seconds and no fewer reach |
| Errors.HealthErrorMeaning | src/errors.rs:58-74 | the stored category tells all kinds of failure apart, and only HTTP failures carry a status |
| RefreshRuns.CapLosesNothing | src/refresh.rs:90-92 | a failure counter capped at six gives the same backoff as an unbounded one |
| RefreshRuns.StepKeepsInv | src/refresh.rs:27-124 | every event keeps the counters, deadlines, spacing and generations consistent with the history |
| RefreshRuns.BackoffOverRuns | src/refresh.rs:50-112 | in every run of a process, after n failures in a row the next fetch of a provider starts at least the last backoff after the previous completion and the sum of the n backoffs after the first one, abandoned plans or not |
| RefreshRuns.BackoffBeforeStart | src/refresh.rs:89-112 | the same for I/O that has started but not finished |
| RefreshRuns.TotalBackoffClosed | src/refresh.rs:90-92 | that sum is 10(2^n - 1) up to five failures and 310 + 300(n - 5) beyond |
| RefreshRuns.HintsOverRuns | src/refresh.rs:93-113 | in every run a representable retry hint delays the provider's next fetch |
| RefreshRuns.EligibleExactly | src/refresh.rs:50-113 | in every run a provider is eligible exactly when the history says so: ten seconds after its last plan or, when that fetch has failed, once the backoff has passed and the instant it asked for has come |
| RefreshRuns.DueAfterFailure | src/refresh.rs:89-113 | right after the n-th failure in a row the provider is due exactly when the n-th backoff has passed and a representable hint is reached |
| RefreshRuns.RefusedExactly | src/refresh.rs:32-61 | in every run a plan is refused exactly within ten seconds of the last one, or while no provider is due by the history |
| RefreshRuns.OrdinaryTakesTurn | src/refresh.rs:44-69 | in every run an ordinary plan takes the due provider nearest behind the last provider of the plan before it, full or ordinary |
| RefreshRuns.CadenceOverRuns | src/refresh.rs:32-40 | any window of T seconds of any run holds at most T/10 + 1 plans |
| RefreshRuns.RotationAdvances | src/refresh.rs:68 | after dispatching q everything behind it is strictly closer |
| RefreshRuns.StarvationFreedom | src/refresh.rs:42-69 | a provider whose deadline has passed is in one of the next four plans, whatever mix of ordinary and full ones |
| RefreshRuns.StaysEligible | src/refresh.rs:50-67 | until a plan contains it, such a provider stays eligible |
| RefreshRuns.ActivationNotLost | src/refresh.rs:42 | a plan is full exactly when no full plan that captured its generation or a later one has completed |
| RefreshRuns.AcknowledgementMonotone | src/refresh.rs:120-123 | the acknowledged generation never decreases and never passes the latest request |
| Presence.MapRefinesHistory | src/presence.rs:11-49 | after any history of calls under a monotone clock the pruned map is exactly the sessions whose last accepted call was a heartbeat at most fifteen seconds ago, the counter is the number of activations, and the cap holds |
| Presence.AnswersMatchHistory | src/presence.rs:20-36 | a heartbeat is refused exactly when the history says the audience is full without it, and every answer is the audience's size |
| Presence.ViewerMap.ApplyUpdate | src/presence.rs:11-37 | the update computes the specified map, counter and answer |
| Presence.ViewerMap.ActiveCount | src/presence.rs:39-44 | the count prunes and changes nothing else |
| Pricing.MergeSnapshotSources | src/pricing.rs:341-359 | the merged list is ordered, duplicate-free, and holds for each source its last fetched quote, else its last valid stored one |
| Pricing.OrderedSources | src/pricing.rs:361-375 | configured providers in order, then the other names ascending, nothing lost |
| Names.BeforeMeaning | src/pricing.rs:361-375 | providers are listed in configured order and before all other names, and those as in a dictionary |
| Names.LexMeaning | src/pricing.rs:370-371 | the order of names is decided by the first difference, a prefix coming first |
| Pricing.MergeUnique | src/pricing.rs:341-375 | that description determines the result |
| Pricing.MergeConcat | src/pricing.rs:341-359 | merging batch a then b is merging their concatenation |
| Batches.RefreshSnapshot | src/pricing.rs:234-275 | the collecting loop builds the specified snapshot, health records and failures |
| Batches.FailuresMeaning | src/pricing.rs:240-249 | the failures name exactly the providers whose fetch failed, each with its own error |
| Batches.FailuresInOrder | src/pricing.rs:240-249 | they are listed in configured order, and nothing else is |
| Batches.LabelMeaning | src/pricing.rs:252-256 | the snapshot is labelled with the one provider that succeeded, "all" when four did, and "partial" otherwise |
| Batches.BatchAcceptedExactly | src/storage.rs:90-109 | the store accepts a batch exactly when no failure carries a status outside 100..599 |
| Batches.OddStatusLosesBatch | src/storage.rs:98 | a concrete batch with status 700 is rejected together with another provider's quote |
| Batches.FoldIsOneMerge | src/pricing.rs:234-275 | committing batch by batch is one merge of all committed quotes in commit order |
| Batches.Provenance | docs/source-contract.md:39-48 | a source's quote is its latest committed one |
| ProtocolProofs.MutexNext | src/handlers.rs:81-159 | in every step the guard names its one holder |
| ProtocolProofs.InvNext | src/handlers.rs:77-165 | every step of every participant keeps all protocol invariants |
| ProtocolProofs.NoLostUpdate | src/handlers.rs:78-159 | in every interleaving, with failed writes, early returns, cancellations and restarts, the stored state is the fold of the committed batches |
| ProtocolProofs.QuoteProvenance | src/pricing.rs:234-275 | a quote is stored exactly when it is its source's latest committed fetch or, for a source without one, what the start held: all of it before any commit, the last valid quote afterwards |
| ProtocolProofs.SingleFlight | README.md:40-43 | at most one request or task holds the guard |
| ProtocolProofs.SchedulerRunsAreLegal | src/handlers.rs:116-138 | the scheduler inside every interleaving makes a legal scheduler run, so its theorems apply |
| Outcomes.FailuresReported | src/handlers.rs:132-139 | in every interleaving the scheduler is told exactly of the fetches that failed, each with its own error, whether or not the write succeeded |
| Outcomes.OutcomesStored | src/pricing.rs:234-275 | a failed write changes nothing; a successful one stores each quote with its time and kind and each provider's attempt, in a snapshot dated when the fetches ended |
| Outcomes.SnapshotStored | src/pricing.rs:252-267 | that snapshot's mean, spread, warnings and label are those of its quotes and of the failures |
| Outcomes.OthersUntouched | src/storage.rs:419-446 | providers the plan did not ask keep their health |
| ProtocolProofs.LockAndRead | src/handlers.rs:81-82 | a request takes the guard exactly when it is free, and reads one committed state |
| ProtocolProofs.BeginHandsOver | src/handlers.rs:117-131 | asking for a plan hands guard, plan and the snapshot stored now to one new task, or frees the guard |
| ProtocolProofs.StopsExactly | src/handlers.rs:127-131 | a dispatched task goes on exactly when the server is not stopping, and otherwise ends without I/O |
| ProtocolProofs.EndingReleases | src/handlers.rs:127-159 | whoever ends frees the guard exactly if it held it, and changes nothing else |
| ProtocolProofs.AnyoneMayMove | src/handlers.rs:77-165 | no order of events is assumed: clocks, crashes, arrivals, cancellations and every outcome are possible at every point |
| ProtocolProofs.AdmissionMeaning | src/handlers.rs:109-116 | a request goes on exactly when it owns the guard, read the state, sees no shutdown, counted a viewer, and the snapshot stored now is not younger than ten seconds |
| ProtocolProofs.IoNeedsViewers | src/handlers.rs:127-131 | I/O starts only in the guard holder and only while a session is alive |
| Activations.FullExactly | src/refresh.rs:42 | in every reachable world a plan is full exactly when the generation its request loaded is positive and no full plan that captured it or a later one has completed; it misses activation g exactly when g came after the load and the loaded generation is the one served last |
| Activations.ActivationServed | src/handlers.rs:117-137 | after generation g is published every request not already past its load gets full plans until a full plan that captured at least g has completed |
| Activations.AtMostOneMiss | src/handlers.rs:117-118 | over every run after g is published at most one plan misses g, that of the request already past its load |
| Activations.ActivationMissed | src/handlers.rs:117-118 | a reachable world in which a plan misses a published, unserved activation |
| Audiences.ViewersFollowHistory | src/presence.rs:11-49 | in every interleaving the map holds the audience of the presence calls this process received, and the published generation is the number of their activations |
| Audiences.ObservesAudience | src/handlers.rs:83 | a request counts exactly the audience of that history |
| Audiences.IoExactlyWithAudience | src/handlers.rs:127-131 | a task at the viewer check starts I/O exactly when that history has an audience |
| Audiences.NewestActivationServed | src/handlers.rs:117-118 | a plan misses the newest activation of the history exactly when that came after the load, and is otherwise full exactly while that activation is unserved |
| ProtocolProofs.CleanDrain | src/lifecycle.rs:56-65 | when the server returns normally nothing runs, the guard is free and every started refresh made its store attempt |
| ProtocolProofs.NothingAfterReturn | src/lifecycle.rs:56-65 | afterwards the process dispatches and writes nothing |
| ProtocolProofs.NoNewIoAfterShutdown | src/lifecycle.rs:43-47 | after shutdown begins only a task that had passed the flag check may still start I/O |
| Storage.HealthRoundTrip | src/storage.rs:419-481 | every health record decodes to itself |
| Storage.HealthAcceptedExactly | src/storage.rs:90-109 | a failed fetch's record passes the CHECK exactly when its HTTP status, if any, is in 100..599 |
| Storage.CheckAdmitsEncodings | src/storage.rs:90-109 | the table admits exactly the encodings of consistent records, so every admitted row decodes to the record it encodes |
| Storage.DecodesHealthExactly | src/storage.rs:449-481 | what each row decodes to |
| Storage.HealthStoredAndKept | src/storage.rs:419-446 | after a store the batch's sources read back as their last records and all others as before |
| Storage.SnapshotRoundTrip | src/storage.rs:203-259 | storing a merged snapshot and reading it back yields the same record, order included, whatever ordered permutation the query returns |
| Storage.StoreReplaces | src/storage.rs:203-259 | a stored snapshot leaves no other snapshot and no other quote |
| Storage.LatestIsNewest | src/storage.rs:310-317 | no row has a later fetch time, or the same and a larger id, than the one selected |
| Storage.ReadsNewest | src/storage.rs:306-395 | a read returns the fields of that newest row |
| Storage.ReadOutcome | src/storage.rs:306-395 | a read finds nothing exactly without a snapshot, and fails exactly when the newest one's warnings or quotes do not decode |
| Storage.DecodesExactly | src/storage.rs:330-395 | decoding the quotes fails exactly when some row does not decode |
| Storage.Database.StoreRefresh | src/storage.rs:184-201 | quotes and health are stored together or not at all, whichever statement fails |
| Storage.Database.WriteSnapshot | src/storage.rs:203-259 | the staged tables hold exactly the new snapshot; an invalid price is refused |
| Storage.Database.WriteHealth | src/storage.rs:419-446 | the staged rows are the upserts of the batch; a rejected row fails the transaction |
| Storage.Database.ReadSnapshot | src/storage.rs:306-395 | the read returns the latest snapshot with its quotes in order, or the decoding error |
| Storage.Database.ReadHealth | src/storage.rs:449-481 | the read lists every source once, in order, or reports a row that does not decode |
| Storage.Database.InitDb | src/storage.rs:23-53 | startup succeeds exactly on supported schemas without faults, and otherwise changes nothing |
| Storage.PruneKeepsReads | src/storage.rs:153-169 | pruning keeps exactly the row a read selects, with all its quotes |
| Storage.StartupKeepsNewest | src/storage.rs:153-169 | startup, with or without migration, keeps exactly the newest snapshot and only its quotes |
| Storage.StartupPreservesReads | src/storage.rs:23-53 | startup on the current schema leaves snapshot and health as they were |
| Storage.MigrationKeepsLatest | src/storage.rs:55-124 | migration keeps the latest snapshot and all its quotes, rewriting only times and kinds, with unknown health |
| Storage.MigratedQuotesDecode | src/storage.rs:80-92 | a migrated quote row decodes to its price with unknown time and the kind its source's name implies |
| Storage.KindsAgree | src/storage.rs:80-92 | the kind a name implies at migration is the kind its provider's fetches carry |
| Storage.StartupIdempotent | src/storage.rs:23-53 | a second startup changes nothing |
| StorageRefinement.StoreImplementsCommit | src/storage.rs:184-201 | a transaction on the tables is a commit of the protocol |
| StorageRefinement.StartupImplementsRestart | src/storage.rs:153-169 | a restart shows the same stored state |
| Averages.Average | src/freshness.rs:67-75 | the loop returns the arithmetic mean, or nothing for no prices |
| Averages.RunningIsMean | src/freshness.rs:70-73 | every partial average is the mean of the prices so far |
| Averages.RunningBetween | src/freshness.rs:68-73 | no partial average leaves the range of the prices so far |
| Averages.StepsBounded | src/freshness.rs:68-69 | each difference the loop takes is at most the spread |
| Averages.SpreadMeaning | src/freshness.rs:76-86 | the spread is the distance of two prices between which all others lie, nonnegative, and zero exactly when all are equal |
| Freshness.NewestMeaning | src/freshness.rs:58-64 | a provider contributes exactly when it has a fresh row, and then one of maximal time |
| Freshness.ContributorsMeaning | src/freshness.rs:53-66 | contributors are the chosen rows, one per provider, in configured order |
| Freshness.FreshExactly | src/freshness.rs:31-43 | exactly when a quote is fresh, future or stale |
| Freshness.AgeExactly | src/freshness.rs:27-30 | the age is the time since the observation, known when it is representable and not negative |
| Freshness.AggregatesMeaning | src/freshness.rs:67-117 | mean and spread summarise exactly the contributors, and are missing without any |
| Freshness.OnlyFreshMatters | docs/source-contract.md:115-126 | inserting a stale, unknown, future, invalid or unconfigured quote anywhere changes no aggregate |
| Freshness.StatusMeaning | src/freshness.rs:87-101 | the four statuses partition all inputs by coverage, health and held quotes |
| Freshness.LiveMeaning | src/freshness.rs:87-94 | LIVE exactly when every provider has a valid quote less than 90 seconds old and succeeded last |
| Freshness.NotFreshMeaning | src/freshness.rs:93-101 | STALE or UNAVAILABLE exactly when no provider has such a quote, UNAVAILABLE exactly when nothing valid is held |
| Handlers.RespondMeaning | src/handlers.rs:160-237 | a response is LIVE exactly when the evaluation is and no refresh failed, 503 and UNAVAILABLE exactly without valid quotes, and its warnings are the failures in front of the stored ones |
| Handlers.UnreadMeaning | src/handlers.rs:190-192 | without a readable state the response is a 500 that says only that |
| Client.ResponsesValidate | src/dashboard.js:41-61 | every response of the server passes the dashboard's validation, and a 503 is always UNAVAILABLE |
| Client.DisplayIsSound | src/dashboard.js:41-61 | whatever a server sent, a validated response is displayed with distinct young contributors, no more than configured, and a positive mean |
| Client.OnlyUnavailableIsEmpty | src/dashboard.js:129-139 | only UNAVAILABLE responses come without quotes |
| Client.ClientRefinesServer | src/dashboard.js:76-95 | without future quotes, and when tied newest quotes agree in price, the dashboard shows after e seconds what the server would answer then: contributors, mean, spread and status, the latter OFFLINE or no better than DEGRADED after errors of its own |
| ShownWorlds.StoredOrdered | src/pricing.rs:341-375 | in every reachable world the stored list has one quote per source once a quote is committed |
| ShownWorlds.DashboardRefinesServer | src/dashboard.js:76-95 | in such worlds the dashboard refines the server without any condition on ties |
| Client.AgreementExactly | src/dashboard.js:76-84 | both pick equal prices at all later times exactly when no configured quote is in the future and the first and the last of each provider's newest fresh quotes have one price |
| Client.AgreesAtOnceExactly | src/freshness.rs:53-66 | at once they do exactly under the second condition |
| Client.NeverTooOptimistic | src/dashboard.js:74-90 | whatever is stored and whatever errors the dashboard met, it never shows more contributors or a better status than the server would, and OFFLINE exactly on a price error |
| Client.TiesDiffer | src/freshness.rs:64 | a stored state with tied rows whose response averages 200 while the dashboard shows 100 |
| Client.TiedIsNotMerged | src/pricing.rs:341-375 | no merge writes that state |
| Dashboard.InvNext | src/dashboard.js:141-244 | every event keeps one flight per worker, the timer discipline and live loops |
| Dashboard.AnythingMayHappen | src/dashboard.js:141-244 | no order of settlements, timers, continuations, hides and shows is assumed |
| Dashboard.LoopsNeverDie | src/dashboard.js:141-244 | in every run at most one request per worker is in flight and while running each loop is busy, timed or about to start |
| Dashboard.OnlyCurrentResponsesShow | src/dashboard.js:160-187 | nothing but a response of the current generation changes data or errors |
| Dashboard.PriceSettlement | src/dashboard.js:129-139 | a current price response replaces data and time and clears the error, except an unavailable one met while quotes are held, which like a failure only sets the error |
| Dashboard.HeartbeatSettlement | src/dashboard.js:158-186 | a heartbeat sets the viewer error exactly when it failed; only the first of a visible period touches the price, as a price response would |
| Dashboard.StartupResolved | src/dashboard.js:170-226 | the startup continuation learns the delay of the first price request, or that there was no price |
| Dashboard.QuotesHeld | src/dashboard.js:131-133 | over every run, held quotes stay until a response that is not unavailable replaces them |
| Dashboard.LateResponsesIgnored | src/dashboard.js:147-187 | a request from before the page was hidden never becomes current again |
| Dashboard.LoopsNeverMultiply | src/dashboard.js:188-226 | requests, timers and pending starts of the price loop grow only when the page becomes visible, and then by one |
| Dashboard.LoopsBounded | src/dashboard.js:212-226 | over every run they are at most as many as the times the page became visible, less the stray timers that fired after a startup |
| Dashboard.OverwrittenTimerStaysArmed | src/dashboard.js:192-195 | an overwritten handle leaves its timer armed |
| Dashboard.StraysExactly | src/dashboard.js:141-244 | armed price timers other than the remembered one change only by an overwrite, which adds one, and by their own firing |
| Dashboard.SingleExactly | src/dashboard.js:192-195 | from one price timer a second arises exactly when a price request settles while the remembered timer is armed |
| Dashboard.SingleThroughoutExactly | src/dashboard.js:141-244 | a run never has a second price timer exactly when no such settlement occurs in it |
| Dashboard.StraysBalance | src/dashboard.js:141-244 | over every run the extra timers are the overwrites less the extra timers fired |
| Dashboard.SingleAfterRun | src/dashboard.js:141-244 | a run from the start ends without a second price timer exactly when these two counts are equal |
| Dashboard.StrayCollapses | src/dashboard.js:141-148 | an extra timer that fires after the startup makes the loops strictly fewer |
| Dashboard.SecondTimerReached | src/dashboard.js:188-244 | a run of hides, shows and responses that ends with two armed price timers |
| Dashboard.Tracker.Settle | src/dashboard.js:156-198 | settling a request updates workers, timers, data and the startup continuation as specified |
| Dashboard.Tracker.Start | src/dashboard.js:212-227 | showing the page starts a generation and its first heartbeat as specified |
| Dashboard.Tracker.Stop | src/dashboard.js:229-244 | hiding the page ends the generation and clears the remembered timers |
| Feed.FeedNeverDies | src/dashboard.js:306-410 | in every run the feed is exactly one request or one armed timer while running, and has no timer otherwise |
| Feed.RetryTimeRespected | src/dashboard.js:314-391 | requests start only when the retry time has come, and exactly the current settlements move it, to their delay from then |
| Feed.RequestsExactly | src/dashboard.js:314-398 | a request starts exactly when the page is shown or the timer fires, none is in flight and the retry time has come |
| Feed.OwnershipKept | src/dashboard.js:400-410 | a request keeps its ownership until it settles, whatever is hidden or shown meanwhile |
| Feed.RunsWhileShown | src/dashboard.js:393-410 | the feed runs exactly from the events that show the page to those that hide it |
| Feed.Loop.RefreshFeed | src/dashboard.js:314-324 | a refresh starts a request, reschedules or does nothing, as specified |
| Limits.Gate.Allow | src/limits.rs:36-50 | a call computes the specified tokens, clock and verdict |
| Limits.TokensAreMinimum | src/limits.rs:41-49 | after any calls the token count is the minimum over all split points of the un-lazy formula |
| Limits.AnyOrderBound | src/limits.rs:36-50 | for clock readings in any order, at most rate + rate times the forward movement passes |
| Limits.MonotoneBound | src/limits.rs:36-50 | when the readings of calls i to j are nondecreasing, at most rate + rate * (t_j - t_i) of them pass, whatever came before |
| Limits.AllowedExactly | src/limits.rs:45-49 | a call passes exactly when it exceeds the bound of no window that ends with it |
| Limits.WindowsBoundedExactly | src/limits.rs:36-50 | for any list of readings: every window of it, at every rate and from every earlier state, passes at most rate + rate * (last - first) exactly when the readings are nondecreasing |
| Limits.OutOfOrderExceedsSpan | src/limits.rs:86 | out of order, readings within one second let any number of requests through at rate 1 |
| Closure.Retain | scripts/prune_runtime.py:71-81 | the worklist terminates on every graph; it succeeds exactly when all needed names are reviewed and present, and then keeps exactly the needed libraries |
| Closure.IndexesNext | scripts/prune_runtime.py:64-69 | taking the files one by one, each base name resolves to its last bearer |
| Closure.IndexUnique | scripts/prune_runtime.py:64-69 | that description determines the index |
| Closure.LeastClosed | scripts/prune_runtime.py:71-81 | what is kept is contained in every set closed under the needs |
| Closure.Prune | scripts/prune_runtime.py:64-85 | the removal loop removes exactly the indexed libraries that are not kept, and these are all the unneeded files if and only if no two files share a base name |
| Closure.RemovesExactlyUnneeded | scripts/prune_runtime.py:64-85 | only unneeded files are removed, and all of them if and only if no two files share a base name |
| Closure.NamesakeStays | scripts/prune_runtime.py:64-69 | two files with one name, of which the first is unneeded and stays |

## Left out

- Network, TLS and JSON: provider adapters, response decoding and the HTTP front end appear only as arbitrary outcomes and outcomes' fields.
- SQLite: SQL text, journalling and column affinities; a table is a collection, a transaction is staged state that may fail at any statement, a query with ORDER BY is any ordered permutation.
- Floating point: prices and tokens are reals, so rounding is not covered.
- JSON encodings of warnings: a stored warnings text is either its list or undecodable.
- The stored text of warnings and of the API beyond `Handlers.Respond`: viewer counts, skip reasons and the `refreshing` flag.
- The published refresh report: the protocol keeps the step that publishes it before the guard is released, but not its content.
- Overflow of the monotonic clock in `now + backoff` and of 64-bit generations: assumed representable.
- RetryAfter parsing: a hint is a delay or a date; the digits and the HTTP date format are not modelled.
- Connection permits, request concurrency slots and timeouts of the HTTP server: a connection is represented by the handler it runs.
- The news cache of src/news.rs: its single-flight machine follows the same pattern with less state.
- Session identifiers, environment parsing, security headers, assets, RSS parsing, rendering of text and images.
- The runtime image scripts other than the library worklist.
- The handlers and tasks of the protocol are steps on values rather than methods of a class, because they share one world and interleave; update in place is covered by the classes of the components.
