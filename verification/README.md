# A verified model of copad's workflow runtime and comux host

copad runs workflows: events travel over a bus, triggers match them, fire actions and may wait for
a later event; a GUI hosts terminals that a server (comux) lends out. This project models those
parts as Dafny classes and step systems and proves what they promise over whole runs.

| Files | What they model |
|---|---|
| Claims, ClaimLaws, ClaimLedger, ClaimLiveness, ClaimConvergence | one host claiming terminal attachments from an untrusted, lagging server |
| MuxHost, MuxConnection, MuxPolling | the locks around it: GUI calls, link events, parked messages, reconnects, overlays, the counter GUIs poll |
| AwaitPools, AwaitLaws, AwaitLifecycle, AwaitQueues | the preflight and pending pools of triggers that wait for an event |
| TriggerEngine, TriggerLaws, TriggerRuns | dispatch, promotion, resolution, sweeps, reload, origin gates |
| Interpolation, InterpolationLaws | `{event.x}` and `{context.x}` substitution in action parameters |
| EventBus, BusRuns | history ring, bounded and unbounded receivers, concurrent publishers |
| Glob, Covering | event-kind patterns and their reduction to a covering set |
| TriggerPump, PumpRuns, PumpBus, PumpNeeds | receivers per pattern, the sorted drain, reloads, the pump side by side with the bus, the receivers against the engine's needs |
| ConditionSyntax, ConditionPrinter, ConditionLexer, ConditionText, ConditionEval, ConditionLaws | the condition language: lexer, parser, printer, evaluator |
| GuiRegistry, GuiInvoke | registered GUI clients, the primary one, calls and their replies |
| ActionPool, PoolRuns, PoolProgress | action dispatch inline, on the bounded pool, or on a thread of its own |
| Calendar, Runledger | the month of a timestamp, the monthly ledger files and their replay |
| CronScheduler, CronRuns, CronSleep, CronLaws | cron schedules, the worker's rounds, its sleep, reloads |
| Prelude, Values | shared vocabulary |

Code that the repository writes as objects or loops is written here as classes and methods; each
method is proved equal to a function of its inputs and the old state, and the theorems are about
those functions. Concurrency is a step system: one step is one lock section or one channel
operation, and a run is any sequence of steps. A step that is not enabled changes nothing, so a
theorem about every list of steps is a theorem about every schedule.

## Where the code does not do what one might expect

- A repeated `reconcile` on unchanged input is quiet except in one case, when the server lists one
  attachment twice, once free and once fully claimed. `RepeatIsQuiet` states the exact condition.
- The drain of the trigger pump does not keep the order of one receiver: the stable sort lets a
  registry completion overtake an earlier event of the same receiver (`ReceiverCanBeReordered`).
  Whatever order the receivers are drained in, a receiver's order survives if and only if no
  completion in its queue comes after another event (`ReceiverOrderKeptExactly`; for any selection
  from any batch, `OrderKeptExactly`).
- A reload can lose events. Whether an event is lost is settled when it is published, and
  `ExactlyOnce` is the exact condition, for every event of every run: it is dispatched exactly once
  if and only if it was not doomed (`Doomed`), that is, unless its pattern has no receiver at that
  moment because a reload has dropped the old one or not opened the new one yet, or its receiver has
  been drained for a reload that is going to drop it. `PumpCanLose` and `GapCanLose` are runs up to
  the two kinds of doomed event; outside reloads there is none (`ExactlyOnceOutsideReloads`).
- The comment on `Runledger::replay` says it reads the files from the month of `since_ms` onward;
  the code reads every file. `ReplayIsTheLog` proves that on files the ledger wrote itself the two
  give the same result.
- A cron worker can fall asleep on schedules a reload has replaced: the wait without a time does not
  compare generations. It does so if and only if none of the schedules it swept has a next fire, a
  reload was installed after that sweep, and there is no shutdown (`FallsAsleepBehindExactly`).
  That reload's notification came before the sleep (`NotifiedExactly`), so the worker sleeps on past
  the new slots until a later reload, the shutdown or a spurious wake-up (`SleepsOn`,
  `DormantSleepMissesReload`). A timed sleep is always on the schedules in force, but ends later
  than their earliest next fire by what passed between the sweep and the wait
  (`TimedSleepIsCurrent`).
- The five seconds of grace bound the decision to fire a cron slot, not the dispatch: every slot
  decided is dispatched or skipped, never both (`FiredOrSkipped`), but the worker can be held up for
  any time between its check and the dispatch (`DispatchCanBeLate`).

## Model

| member | source | states |
|---|---|---|
| ClaimProtocol.Claims.Reconcile | comux-host/src/muxhost.rs:85-147 | the new book and the exact list of messages for any model and any served tags: confirmation, detachment, release of what is no longer wanted, at most one new claim, release of everything without a list |
| ClaimProtocol.Claims.Refuse | comux-host/src/muxhost.rs:149-153 | a refusal, which names no attachment, ends the claim in flight and marks it refused; nothing else changes |
| ClaimLaws.RefusalExactly | comux-host/src/muxhost.rs:149-153 | no other refusal is recorded or lost, and claims held and counted stay as they are |
| ClaimProtocol.Claims.CoversAttachment | comux-host/src/muxhost.rs:161-163 | true exactly for held attachments and the one in flight |
| ClaimLaws.HeldExactly | comux-host/src/muxhost.rs:85-147 | held after a reconcile is exactly what was held, or claimed and now shown with sidebar, status bar and overlays by one entry, and is shown with a tag of a served panel by a server that can host |
| ClaimLaws.ClaimExactly | comux-host/src/muxhost.rs:85-147 | Ready is sent for the smallest attachment that may be claimed and for no other, whenever there is one and no claim is in flight: wanted, shown without an owner, not ours, not refused while somebody owns it, and claimed fewer than three times |
| ClaimLaws.ReleaseExactly | comux-host/src/muxhost.rs:85-147 | Gone is sent for exactly what was ours, is attached and is not wanted; without a list, for everything held and the claim in flight |
| ClaimLaws.InOrder | comux-host/src/muxhost.rs:85-147 | releases come first, smallest attachment first; the claim is last and alone |
| ClaimLaws.RefusedExactly | comux-host/src/muxhost.rs:85-147 | what was refused stays so while an owner is listed or no list is known, and no longer |
| ClaimLaws.BudgetExactly | comux-host/src/muxhost.rs:85-147 | the count of claims grows by one with each and starts again when the attachment detaches or its claim is honoured |
| ClaimLaws.CannotHost | comux-host/src/muxhost.rs:85-147 | on a server that cannot host nothing stays held and nothing is claimed |
| ClaimLedger.AscendingDistinct | comux-host/src/muxhost.rs:62-83 | the iteration of an ordered set lists exactly its elements, in strictly ascending order |
| ClaimLedger.LedgerAgrees | comux-host/src/muxhost.rs:84-164 | over every run of reconciles and refusals: replaying only the messages and what the server showed, the attachments with a Ready not yet ended are exactly held plus in flight; Ready is sent only when none stands and at most three times since the last confirmation or detachment; Gone only for a standing claim; the three sets stay disjoint |
| ClaimLiveness.RepeatIsQuiet | comux-host/src/muxhost.rs:85-147 | a repeated reconcile changes and sends nothing if and only if the first did not claim an attachment its list also shows as fully claimed |
| ClaimLiveness.RepeatIsQuietOnDistinctIds | comux-host/src/muxhost.rs:75-147 | so it is quiet on every list with distinct ids |
| ClaimLiveness.RepeatCanBeLoud | comux-host/src/muxhost.rs:85-147 | a concrete list with one id twice on which it is not |
| ClaimConvergence.Converges | comux-host/src/muxhost.rs:75-147 | against a server that honours every message within `lag` rounds of its being sent, showing a list that lags behind until then: from any state in which the two agree, held equals the wanted set with nothing in flight after `lag` rounds for each attachment missing, what the claim in flight may still wait, and one more; and stays so |
| ClaimConvergence.ConvergesFromStart | comux-host/src/muxhost.rs:75-147 | from the default state, `lag` rounds for each wanted attachment and one more are enough |
| MuxHost.Host.SendOps | comux-host/src/muxhost.rs:522-537 | messages go to the link in reconcile order, or are parked behind what is parked already |
| MuxHost.Host.ReconcileAndSend | comux-host/src/muxhost.rs:489-506 | reconciling and handing over happen as one section |
| MuxHost.Host.Apply | comux-host/src/muxhost.rs:264-284 | what binding, unbinding, serving and hosting reports change |
| MuxHost.ServedExactly | comux-host/src/muxhost.rs:195-200 | the tags reconciled with are those of the served panels that are bound |
| MuxHost.ReportsExactly | comux-host/src/muxhost.rs:264-284 | binding binds one panel, unbinding it also stops serving it, serving replaces the set; nothing else moves |
| MuxHost.Host.With | comux-host/src/muxhost.rs:489-506 | a report changes the state, bumps the generation and sends what follows from it |
| MuxHost.CounterMovesExactly | comux-host/src/muxhost.rs:485-506 | the counter moves by one if a report changed a binding, the panels served or what is held, and not otherwise |
| MuxHost.Host.AnswerOverlay | comux-host/src/muxhost.rs:286-301 | an answered overlay leaves the list and is remembered, and its result, with choice and text, goes to the link installed at that moment and to no other |
| MuxHost.Host.OnMessage | comux-host/src/muxhost.rs:702-772 | the whole state after each kind of link message |
| MuxHost.Host.OnFocus | comux-host/src/muxhost.rs:709-716 | a focus request is kept for the panel it names |
| MuxHost.Host.OnOverlay | comux-host/src/muxhost.rs:722-737 | an overlay is shown, re-specified in place, or ignored when already answered |
| MuxHost.ShownAgain | comux-host/src/muxhost.rs:722-737 | an overlay already shown keeps its place and gets the new content, unless it was answered |
| MuxHost.ShownFirst | comux-host/src/muxhost.rs:722-737 | a new one goes last, and only if it was not answered and its attachment is held or claimed |
| MuxHost.OverlayGoes | comux-host/src/muxhost.rs:286-301 | closed by the server or answered here it goes; only an answer is remembered, and only the installed link gets it |
| MuxHost.FocusExactly | comux-host/src/muxhost.rs:709-716 | a focus request counts for an attachment held or claimed and for no other |
| MuxHost.Host.OnUpdate | comux-host/src/muxhost.rs:741-772 | a model update reconciles; a welcome first forgets the previous epoch |
| MuxHost.Host.BeginEpoch | comux-host/src/muxhost.rs:741-772 | what a welcome resets |
| MuxHost.Host.OnClosed | comux-host/src/muxhost.rs:773-779 | the state after the link's last event |
| MuxHost.EpochsStartAfresh | comux-host/src/muxhost.rs:741-779 | a welcome and the end of a link both forget claims, overlays, answers and focus requests, and nothing about panels and links |
| MuxHost.Host.Install | comux-host/src/muxhost.rs:565-575 | an installed link first carries everything parked, in order |
| MuxHost.Host.Unlink | comux-host/src/muxhost.rs:577-579 | the link is dropped and nothing else changes |
| MuxHost.Host.ClearUnsent | comux-host/src/muxhost.rs:580-582 | parked messages of a dead connection are discarded |
| MuxHost.Host.OpenFailed | comux-host/src/muxhost.rs:585-592 | the state after a failed attempt to connect |
| MuxConnection.LinksCarryTheirOwn | comux-host/src/muxhost.rs:489-596 | under every interleaving each link carries exactly the claim messages reconciled during its own connection, in that order, parked ones first; none is reconciled outside a connection; the book agrees with the claim log of the current epoch |
| MuxConnection.AlwaysSound | comux-host/src/muxhost.rs:682-786 | the invariant of the connection layer holds after every possible run |
| MuxConnection.AnsweredNeverReturns | comux-host/src/muxhost.rs:286-301 | inside one epoch an answered overlay never shows again and shown overlay ids are distinct |
| MuxPolling.NothingMissed | comux-host/src/muxhost.rs:223-225 | a window that read the counter and then the state, and finds the counter unmoved with no move owed, has read what there is to show, whatever the threads did in between |
| MuxPolling.StepMoves | comux-host/src/muxhost.rs:485-507 | every step that changes what a window shows, or brings a focus request, moves the counter, and none moves it back |
| AwaitLifecycle.RegistrationsConserved | copad-core/src/trigger.rs:426-588 | over every run each registered await is in exactly one of preflight, pending and the recorded ends, and it is announced once if it ended by being emitted and never otherwise |
| AwaitLifecycle.OnlyForward | copad-core/src/trigger.rs:426-588 | no step brings an await back to preflight, undoes an end or moves a deadline |
| AwaitLifecycle.StaysOut | copad-core/src/trigger.rs:450-499 | an await that left preflight never returns to it |
| AwaitLifecycle.SweepCleans | copad-core/src/trigger.rs:548-588 | after a sweep at time t, with anything happening between its two sections, neither pool holds an await registered before the sweep and due by t |
| AwaitLifecycle.DeadlineNeverMoves | copad-core/src/trigger.rs:426-499 | wherever an await stands later, its deadline is registration time plus timeout |
| AwaitQueues.RegisterAppends | copad-core/src/trigger.rs:426-444 | registering appends to the queue of its action and to no other |
| AwaitLaws.RegistersWhole | copad-core/src/trigger.rs:426-444 | what a registered entry carries, and its deadline: the moment of registration plus the timeout |
| AwaitQueues.AdvanceTakesHead | copad-core/src/trigger.rs:450-499 | an event of kind `a.completed` from `copad.action` makes the head of a's queue the newest pending entry, one of kind `a.failed` drops it; every other queue keeps its contents |
| AwaitPools.AnnouncesExactly | copad-core/src/trigger.rs:450-473 | an event announces that action `a` succeeded or failed if and only if it comes from `copad.action` and its kind is `a.completed` or `a.failed` |
| AwaitQueues.OthersPassBy | copad-core/src/trigger.rs:450-473 | every other event leaves preflight and pending alone |
| AwaitLaws.CompletedPromotes | copad-core/src/trigger.rs:450-499 | the first preflight of a completed action becomes the last pending entry, with its deadline, policy and payload, the completion's payload as the result, and its template filled in |
| AwaitLaws.FailedDrops | copad-core/src/trigger.rs:450-473 | the first preflight of a failed action goes, and nothing else changes |
| AwaitLaws.NobodyWaits | copad-core/src/trigger.rs:450-473 | an outcome of an action nobody waits for changes nothing |
| AwaitLaws.EventResolves | copad-core/src/trigger.rs:503-544 | the first pending entry whose pattern and required fields the event meets is taken and announced as `<name>.awaited` |
| AwaitLaws.PayloadLayers | copad-core/src/trigger.rs:601-631 | what an announcement carries under each key: the awaited payload under `await`, the result, if any, under `action_result`, and the original fields otherwise |
| AwaitLaws.PreflightSweptExactly | copad-core/src/trigger.rs:548-568 | which entries a sweep leaves in preflight, and which it announces with a null payload and without a result |
| AwaitLaws.PendingSweptExactly | copad-core/src/trigger.rs:568-588 | the same for pending, with the result |
| AwaitQueues.SweepThins | copad-core/src/trigger.rs:548-568 | a sweep thins every queue to its live entries, in order |
| AwaitQueues.OldestGoesFirst | copad-core/src/trigger.rs:450-499 | after every run, the await that an event of kind `a.completed` or `a.failed` takes was registered before every await of that action that it leaves |
| AwaitQueues.PromotedInOrder | copad-core/src/trigger.rs:450-499 | after every run, of two pending entries the one that stands first was pending while the other still waited in preflight |
| AwaitQueues.OldestMatchGoesFirst | copad-core/src/trigger.rs:503-544 | after every run, the pending entry an event takes was promoted before every other match it leaves |
| TriggerEngine.TriggerEngine.SetTriggers | copad-core/src/trigger.rs:250-280 | the compiled triggers are exactly those whose source and condition are valid, in order, and both pools are emptied |
| TriggerLaws.CompileKeepsAccepted | copad-core/src/trigger.rs:250-280 | the compiled list is the configured one without the triggers that have not exactly one source, that are on a schedule but need an event, or whose condition does not parse |
| TriggerLaws.ReloadClears | copad-core/src/trigger.rs:250-280 | a reload leaves nobody waiting and publishes nothing |
| TriggerEngine.TriggerEngine.PromoteOrDrop | copad-core/src/trigger.rs:450-499 | the first preflight of the completed action is promoted or dropped |
| TriggerEngine.TriggerEngine.TakeMatch | copad-core/src/trigger.rs:503-544 | the first matching pending entry is taken and its event prepared |
| TriggerEngine.TriggerEngine.RegisterAwait | copad-core/src/trigger.rs:426-444 | the new preflight entry and its deadline |
| TriggerEngine.TriggerEngine.Dispatch | copad-core/src/trigger.rs:339-422 | pools, calls and published events after one event, with the awaiting pass before the firing pass and both closed to external events unless a trigger opts in |
| TriggerLaws.DispatchExactly | copad-core/src/trigger.rs:339-422 | the calls appended are one per trigger, in configuration order, whose source kind and required fields match, that accepts external events if the event is one, is allowed to if its action is `system.spawn`, and whose condition, if any, is true without error; the count returned is that of the good replies; each such trigger with an await registers it, with the deadline counted from its reply |
| TriggerLaws.AwaitedIsAnnounced | copad-core/src/trigger.rs:339-422 | the first pending entry that expects an internal event is resolved by it and announced at once |
| TriggerLaws.PromotedIsHeard | copad-core/src/trigger.rs:339-422 | a completion promotes before anyone is resolved, so what it promotes may be resolved by the same event |
| TriggerEngine.TriggerEngine.Sweep | copad-core/src/trigger.rs:548-588 | both pools lose exactly what is due; defaults are published for those that ask for it |
| TriggerLaws.SweepExactly | copad-core/src/trigger.rs:548-588 | each pool keeps exactly what is due later, and what the sweep announces is published at once |
| TriggerEngine.TriggerEngine.SplitPreflight | copad-core/src/trigger.rs:548-568 | the parting of the preflight list: what stays, what is announced, how each ended |
| TriggerEngine.TriggerEngine.SplitPending | copad-core/src/trigger.rs:568-588 | the same for the pending list |
| TriggerEngine.TriggerEngine.DispatchCron | copad-core/src/trigger.rs:304-325 | refused if and only if the action is privileged without permission; otherwise exactly one call, and no pool is touched |
| TriggerLaws.CronExactly | copad-core/src/trigger.rs:304-325 | the call made carries the parameters filled in from an empty event named after the trigger |
| TriggerRuns.DispatchFrame | copad-core/src/trigger.rs:339-422 | one event takes at most one preflight and resolves at most one pending entry, and every preflight it registers stands behind the old ones under a new id |
| TriggerRuns.DispatchMoves | copad-core/src/trigger.rs:339-422 | entry by entry: at most one leaves preflight, the first of the action whose `.completed` or `.failed` the event is; at most one leaves pending, whose pattern and required fields the event meets, and then just its resolution is published; what is new in pending was in preflight under the same id; what is new in preflight has a new id |
| TriggerRuns.ExternalOnlyAppends | copad-core/src/trigger.rs:339-422 | with any triggers, an external event removes and alters no pool entry |
| TriggerRuns.ExternalErasure | copad-core/src/trigger.rs:339-422 | if no trigger accepts external events, deleting all of them from a run leaves the pools, the calls and the published events unchanged |
| TriggerRuns.CallsAreTrusted | copad-core/src/trigger.rs:304-422 | every call ever made is of a trigger that accepts external events if the event was one, and is allowed to start programs if its action is `system.spawn` |
| TriggerRuns.EngineConservesRegistrations | copad-core/src/trigger.rs:250-588 | the conservation law for awaits, over every run of the engine |
| Interpolation.InterpolateString | copad-core/src/trigger.rs:783-813 | the loop over a growing buffer equals filling in the template's segments once each |
| Interpolation.CutIsTheString | copad-core/src/trigger.rs:783-813 | cutting a template at its first token loses nothing: head, token and tail put together are the template |
| Interpolation.SegmentsAreTheTemplate | copad-core/src/trigger.rs:783-813 | the segments put back together are the template |
| Interpolation.UnresolvedIsIdentity | copad-core/src/trigger.rs:783-870 | a template none of whose tokens resolves comes out unchanged |
| Interpolation.InterpolatesPiecewise | copad-core/src/trigger.rs:783-813 | substitution is single-pass: it distributes over concatenation, so an inserted value never influences what follows and is never scanned |
| Interpolation.SingleTokenCut | copad-core/src/trigger.rs:742-748 | the single-token test and the loop agree on what the token is |
| Interpolation.TypedStringText | copad-core/src/trigger.rs:708-740 | typed substitution of a string, written as text, is the plain substitution |
| Interpolation.TypedAgrees | copad-core/src/trigger.rs:708-740 | typed and plain substitution agree leaf by leaf over any value |
| InterpolationLaws.TokenFilled | copad-core/src/trigger.rs:783-813 | text up to the first brace stays, the token is replaced or kept as written, and what follows is filled in the same way |
| InterpolationLaws.PlainStays | copad-core/src/trigger.rs:783-813 | text without a complete token stays as it is |
| InterpolationLaws.EventToken | copad-core/src/trigger.rs:750-846 | `event.x` is the payload's field if it has one, and otherwise the kind, the source or the time of the event |
| InterpolationLaws.ActionToken | copad-core/src/trigger.rs:750-846 | `action_result.x` is a field of the result, if there is a result |
| InterpolationLaws.ContextToken | copad-core/src/trigger.rs:750-846 | `context.x` is the active panel or the active directory, as text only |
| InterpolationLaws.OtherToken | copad-core/src/trigger.rs:750-846 | no other token resolves |
| InterpolationLaws.PathFound | copad-core/src/trigger.rs:849-862 | a dotted path goes into nested objects name by name |
| InterpolationLaws.FieldFound | copad-core/src/trigger.rs:849-862 | one name is a field of an object, and nothing in any other value |
| InterpolationLaws.TypedToken | copad-core/src/trigger.rs:708-748 | a string that is one token keeps the type of what it stands for, any other is filled in as text |
| InterpolationLaws.ShapeKept | copad-core/src/trigger.rs:678-740 | both substitutions keep the shape and the keys of a value and touch strings only |
| Glob.CoversIsStrictInclusion | copad-core/src/trigger.rs:656-672 | covering is exactly strict inclusion of the kinds matched, except that `*` also covers itself |
| Glob.SharedKindMeansCovered | copad-core/src/event_bus.rs:295-305 | two patterns that share a kind are equal or one covers the other |
| Glob.MatchesExactly | copad-core/src/event_bus.rs:295-305 | `*` stands for every kind, `foo.*` for those that go on after `foo.`, any other pattern for its own text |
| Covering.CoveringPatterns | copad-core/src/trigger.rs:633-654 | the loop computes the sorted patterns that no other covers, or the star alone |
| Covering.SameKinds | copad-core/src/trigger.rs:633-654 | the reduced patterns match exactly the kinds the input matches |
| Covering.AtMostOneMatches | copad-core/src/trigger.rs:633-654 | no kind is matched by two of them |
| Covering.NoneRedundant | copad-core/src/trigger.rs:633-654 | each matches a kind that no other one does, so none can be removed |
| Covering.ReducedIncreasing | copad-core/src/trigger.rs:633-654 | they come sorted, each once |
| Covering.BeforeExactly | copad-core/src/trigger.rs:633-654 | sorted as strings are: by the first difference, a beginning before what goes on from it |
| EventBus.Bus.SubscribeManyWithBuffer | copad-core/src/event_bus.rs:206-217 | one new receiver at the end, with its own buffer |
| EventBus.Bus.SubscribeUnbounded | copad-core/src/event_bus.rs:221-228 | one new receiver without a bound |
| BusRuns.SubscribeExactly | copad-core/src/event_bus.rs:206-228 | a subscription is live and listed with the patterns and the buffer asked for, holds nothing, and moves no other receiver |
| EventBus.Bus.Record | copad-core/src/event_bus.rs:237-245 | the first critical section of a publish |
| EventBus.Bus.Distribute | copad-core/src/event_bus.rs:246-263 | the second: matching receivers get the event at the end of their queue, full ones miss it, dead ones leave the list |
| BusRuns.DistributeExactly | copad-core/src/event_bus.rs:246-263 | what one distribution does to each receiver: queue, hand over, miss, leave the list, or nothing |
| EventBus.Bus.Deliver | copad-core/src/event_bus.rs:117-129 | one send: queued while there is room, handed over when a receiver without a buffer is blocked waiting for it, missed otherwise |
| EventBus.Bus.Publish | copad-core/src/event_bus.rs:236-264 | both sections, recording first |
| EventBus.Bus.TryRecv | copad-core/src/event_bus.rs:94-96 | the oldest queued event or nothing |
| BusRuns.RecordedFirst | copad-core/src/event_bus.rs:236-264 | with any number of concurrent publishers: history is the last `cap` records, receivers only ever get recorded events, each publication at most once |
| BusRuns.HistoryIsTheRecentLog | copad-core/src/event_bus.rs:270-279 | a history query returns, oldest first, exactly those of the last `cap` recorded events that pass its time and pattern filters, distributed or not |
| BusRuns.ReceiversFollowTheLog | copad-core/src/event_bus.rs:117-129 | an unbounded receiver has got exactly the matching events distributed since it subscribed, in order; a bounded one a subsequence of them, holding no more than its buffer, and has missed exactly the others, each once |
| BusRuns.MissedOnlyWhenFull | copad-core/src/event_bus.rs:117-129 | every event a receiver missed was distributed when its queue was full, and without a buffer when it was not blocked waiting |
| BusRuns.StreamOrder | copad-core/src/event_bus.rs:246-263 | a receiver's stream follows the order of distribution |
| BusRuns.SameOrderEverywhere | copad-core/src/event_bus.rs:246-263 | two receivers see the events they share in one order |
| TriggerPump.TriggerSubscriptions.CollectPatterns | copad-daemon/src/trigger_pump.rs:92-108 | which patterns a list of triggers listens for |
| TriggerPump.TriggerSubscriptions.Reconcile | copad-daemon/src/trigger_pump.rs:92-115 | receivers still needed keep what they hold, the missing ones start empty, the others go |
| PumpNeeds.NeededIsReceived | copad-daemon/src/trigger_pump.rs:86-115 | for every run of the engine and every reload: an event that would still change the engine (make a call, promote, drop or resolve an await) is taken by a receiver of those that the reconcile with the same triggers leaves |
| PumpNeeds.ReceivedIsAsked | copad-daemon/src/trigger_pump.rs:92-115 | and each receiver's pattern is a source, an awaited kind or an outcome of an awaited action of some trigger |
| PumpNeeds.ReceiversExactly | copad-daemon/src/trigger_pump.rs:109-115 | a reconcile keeps a receiver needed as it is, opens an empty one where there was none, and leaves no other |
| TriggerPump.TriggerSubscriptions.DrainInto | copad-daemon/src/trigger_pump.rs:121-137 | everything queued is taken, receiver by receiver in some order, and sorted; every receiver is left empty |
| TriggerPump.TriggerSubscriptions.SortBatch | copad-daemon/src/trigger_pump.rs:128-137 | completions first, each class in the order it was drained |
| TriggerPump.SortedKeepsItems | copad-daemon/src/trigger_pump.rs:121-137 | the batch is a permutation of what was drained |
| TriggerPump.CompletionExactly | copad-daemon/src/trigger_pump.rs:128-133 | a completion is an event from `copad.action` whose kind is some action's `.completed` or `.failed` |
| TriggerPump.CompletionsFirst | copad-daemon/src/trigger_pump.rs:117-137 | no other event stands before a registry completion |
| TriggerPump.OrderKeptExactly | copad-daemon/src/trigger_pump.rs:117-137 | for every batch and every selection: the sort keeps the selection's order if and only if no completion in it comes after another event |
| TriggerPump.ReceiverOrderKeptExactly | copad-daemon/src/trigger_pump.rs:117-137 | for any receivers drained in any order: what one receiver delivered keeps its order in the batch if and only if no completion in its queue comes after another event |
| TriggerPump.ClassOrderKept | copad-daemon/src/trigger_pump.rs:117-137 | so any selection of events of one class keeps its order |
| TriggerPump.ReceiverCanBeReordered | copad-daemon/src/trigger_pump.rs:117-137 | one receiver of `*` whose two events come out of a drain swapped |
| PumpRuns.ExactlyOnce | copad-daemon/src/main.rs:532-556 | for every run, every event the patterns in force match when it is published, and every later moment at which a pump or reload begun since is over: dispatched exactly once if and only if it was not doomed when published, lost exactly once if and only if it was |
| PumpRuns.DoomDecides | copad-daemon/src/main.rs:532-556 | at every moment after its publication a doomed event has not been dispatched and any other has not been lost |
| PumpRuns.ExactlyOnceOutsideReloads | copad-daemon/src/main.rs:532-556 | an event published while no reload is under way is dispatched exactly once, whatever follows |
| PumpRuns.ExactlyOneTakes | copad-daemon/src/trigger_pump.rs:90-115 | an event the patterns in force match reaches exactly one receiver, or falls to exactly one pattern that a reload has dropped or yet to open; any other reaches none |
| PumpRuns.AlwaysSound | copad-daemon/src/trigger_pump.rs:52-137 | after every step the receivers are those of the patterns in force, and no event is duplicated or forgotten |
| PumpRuns.AtMostOnce | copad-daemon/src/trigger_pump.rs:52-58 | over any run an event is dispatched or lost at most once, and only if it was matched when published |
| PumpRuns.PumpedIsSettled | copad-daemon/src/trigger_pump.rs:52-58 | when a pump or reload is over, every event published before it began is accounted for |
| PumpRuns.CompletionsGoFirst | copad-daemon/src/trigger_pump.rs:117-137 | in every run, while a pump still has an action's completion or failure to dispatch, what it dispatches next is one as well |
| PumpRuns.PublishLoses | copad-daemon/src/trigger_pump.rs:109-115 | what a publication loses at once: itself, exactly when the patterns in force match it and no open receiver does, which happens only between a reload's first drop and its last subscription |
| PumpRuns.StepsReconcile | copad-daemon/src/trigger_pump.rs:109-115 | dropping one by one in any order and then subscribing one by one, undisturbed, leaves the receivers that the method Reconcile leaves |
| PumpRuns.PumpCanLose | copad-daemon/src/main.rs:541-546 | a run in which a reload has drained a receiver it will drop, so that what a sink publishes now is doomed |
| PumpRuns.GapCanLose | copad-daemon/src/trigger_pump.rs:109-115 | a run in which a receiver is gone and its replacement not open, so that an event is doomed although old and new patterns match it |
| PumpBus.ReceiversMirrorTheBus | copad-core/src/event_bus.rs:219-264 | under every interleaving with publishers and other subscribers each receiver of the pump holds exactly the events its unbounded subscription of the bus holds, in that order |
| PumpBus.PartsAreRuns | copad-daemon/src/trigger_pump.rs:52-137 | the two side by side are a run of the bus and a run of the pump, so what is proved of either holds |
| ConditionSyntax.Parse | copad-core/src/condition.rs:60-71 | the parser object returns what the grammar functions say, and refuses leftover tokens |
| ConditionSyntax.Parser.Disjunction | copad-core/src/condition.rs:308-316 | result and position after the loop over `or` |
| ConditionSyntax.Parser.Conjunction | copad-core/src/condition.rs:318-326 | result and position after the loop over `and` |
| ConditionSyntax.Parser.Negation | copad-core/src/condition.rs:328-335 | result and position after a negation |
| ConditionSyntax.Parser.Comparison | copad-core/src/condition.rs:337-355 | result and position after an optional comparison |
| ConditionSyntax.Parser.Operand | copad-core/src/condition.rs:357-404 | result and position after an operand, with every error case |
| ConditionSyntax.Parser.Reference | copad-core/src/condition.rs:372-398 | result and position after a dotted path |
| ConditionPrinter.ParseInvertsPrint | copad-core/src/condition.rs:308-404 | a token list parses to a tree if and only if the tree respects precedence and prints to that list |
| ConditionPrinter.Unambiguous | copad-core/src/condition.rs:308-404 | no token list has two readings |
| ConditionLexer.Lex | copad-core/src/condition.rs:105-209 | the index loop returns the tokens, or the first error, of the text |
| ConditionLexer.LexOne | copad-core/src/condition.rs:105-209 | what one turn of that loop reads |
| ConditionLexer.LexString | copad-core/src/condition.rs:211-247 | content and length of a literal, or the error of its first bad escape or missing quote |
| ConditionLexer.LexNumber | copad-core/src/condition.rs:249-272 | the extent of a number, refused without a digit |
| ConditionLexer.LexWord | copad-core/src/condition.rs:274-288 | the maximal run of name characters |
| ConditionText.QuoteReadsBack | copad-core/src/condition.rs:211-247 | quoting a string and reading it gives the string back, whatever follows |
| ConditionText.RequoteSameContent | copad-core/src/condition.rs:211-247 | reading a literal, quoting its content and reading again gives the same content |
| ConditionText.LexReadsBack | copad-core/src/condition.rs:105-288 | a list of possible tokens, written out, is lexed to that list |
| ConditionText.LexedIsLexable | copad-core/src/condition.rs:105-288 | and the lexer produces no other tokens |
| ConditionText.ParseCondition | copad-core/src/condition.rs:60-71 | lexing then parsing, with the error of the stage that failed |
| ConditionText.WriteThenParse | copad-core/src/condition.rs:60-71 | the trees some text parses to are exactly the precedence-respecting ones over possible tokens, and each is parsed back from its own text |
| ConditionLaws.NumberLexes | copad-core/src/condition.rs:249-272 | an optional minus, digits and optionally a dot with more digits are one number token as far as they go, refused without a digit |
| ConditionLaws.NameLexes | copad-core/src/condition.rs:274-288 | a name is read to its end, and three names are literals |
| ConditionLaws.SpaceSkipped | copad-core/src/condition.rs:105-209 | four characters only separate tokens |
| ConditionLaws.LoneCharRefused | copad-core/src/condition.rs:105-209 | a lone equals sign, ampersand or bar and every character that starts no token are refused |
| ConditionLaws.EscapesExactly | copad-core/src/condition.rs:211-247 | the five escapes of a string literal, and the error for any other |
| ConditionLaws.OperandRefused | copad-core/src/condition.rs:357-404 | which error a token list gives where an operand should be |
| ConditionLaws.RootRefused | copad-core/src/condition.rs:372-398 | a dotted name whose root is neither `event` nor `context` is refused |
| ConditionLaws.RestRefused | copad-core/src/condition.rs:60-71 | an unclosed parenthesis and leftover tokens are refused, the latter with their position |
| ConditionEval.StrictImpliesShort | copad-core/src/condition.rs:407-441 | wherever strict evaluation of all operands has a value, short-circuit evaluation has the same |
| ConditionLaws.NumbersCompare | copad-core/src/condition.rs:498-524 | the six operators on two numbers, whether integers or not, are the six relations on their values |
| ConditionLaws.OthersCompare | copad-core/src/condition.rs:498-524 | with another operand equality is structural and ordering is an error |
| ConditionLaws.ErrorsSpread | copad-core/src/condition.rs:73-81 | a comparison fails when an operand does, and a condition is true only as a boolean |
| ConditionLaws.AtomsEvaluate | copad-core/src/condition.rs:443-455 | literals stand for themselves, a group for what is inside |
| ConditionLaws.DigitDenotes | copad-core/src/condition.rs:249-272 | a digit denotes itself |
| ConditionLaws.DigitAppended | copad-core/src/condition.rs:249-272 | a digit appended makes ten times as much and that digit |
| ConditionLaws.DotEnds | copad-core/src/condition.rs:249-272 | a dot at the end changes nothing |
| ConditionLaws.DotMoves | copad-core/src/condition.rs:249-272 | moving the dot past a digit makes ten times as much |
| ConditionLaws.MinusDenotes | copad-core/src/condition.rs:249-272 | a minus sign negates |
| ConditionLaws.PathsCompose | copad-core/src/condition.rs:458-471 | a longer path goes on from what the shorter one finds |
| ConditionLaws.FieldFound | copad-core/src/condition.rs:458-471 | one field of the payload, or null |
| ConditionLaws.ContextFound | copad-core/src/condition.rs:472-492 | the three visible fields of the context, and null for any other reference |
| ConditionEval.DeMorgan | copad-core/src/condition.rs:407-441 | both laws hold, errors included up to their text |
| ConditionEval.OnlyRefsMatter | copad-core/src/condition.rs:443-496 | the result depends only on the references that occur in the expression |
| GuiRegistry.GuiClients.Register | copad-daemon/src/gui_registry.rs:234-287 | the new client is last in order and becomes primary exactly when it wants to and nobody is |
| GuiRegistry.GuiClients.Unregister | copad-daemon/src/gui_registry.rs:289-313 | the client leaves both collections and, if it was primary, hands over |
| GuiRegistry.GuiClients.FindNewest | copad-daemon/src/gui_registry.rs:295-301 | the reverse search finds the last wanting client |
| GuiRegistry.GuiClients.Route | copad-daemon/src/gui_registry.rs:316-338 | who answers, or which of the three errors |
| GuiRegistry.RoutedExactly | copad-daemon/src/gui_registry.rs:316-338 | who answers and when each error: a named client answers in place of the primary, and needs the capability as well |
| GuiRegistry.RegisteredExactly | copad-daemon/src/gui_registry.rs:234-313 | after any run the registered clients are those that joined and did not leave, each as it joined |
| GuiRegistry.PrimaryIsWanting | copad-daemon/src/gui_registry.rs:234-338 | after any run the primary is absent exactly when no registered client wants it, is otherwise a registered client that does, and an untargeted route fails only for a missing primary or capability |
| GuiRegistry.PrimaryChangesOnlyByLeaving | copad-daemon/src/gui_registry.rs:289-301 | a primary keeps its place until it leaves; then the most recently joined client still registered and wanting takes over |
| GuiRegistry.Heartbeat | copad-daemon/src/gui_registry.rs:423-456 | unregisters at the first moment the last `max_misses` pings were all missed, and not before |
| GuiInvoke.GuiClient.Insert | copad-daemon/src/gui_registry.rs:126-144 | a call registers only while the client is connected |
| GuiInvoke.GuiClient.RemovePending | copad-daemon/src/gui_registry.rs:178-182 | a call that gives up leaves no entry |
| GuiInvoke.GuiClient.TakeSender | copad-daemon/src/gui_registry.rs:184-191 | whoever resolves takes the entry out first |
| GuiInvoke.GuiClient.DrainAll | copad-daemon/src/gui_registry.rs:197-201 | a disconnect takes everything and closes the table |
| GuiInvoke.EndsExactly | copad-daemon/src/gui_registry.rs:126-175 | what a call gives back at each way it can end |
| GuiInvoke.OneReply | copad-daemon/src/gui_registry.rs:126-215 | under every interleaving a sender is used at most once, a returned call's id is gone from pending, and a reply it returns is its own |
| GuiInvoke.AnswerIsFinal | copad-daemon/src/gui_registry.rs:126-175 | a returned answer never changes |
| GuiInvoke.NothingAfterDisconnect | copad-daemon/src/gui_registry.rs:130-143 | after a disconnect nothing is pending ever again and a late call returns the disconnect error |
| GuiInvoke.DisconnectAnswersAll | copad-daemon/src/gui_registry.rs:197-215 | a call waiting at a disconnect has its own answer in its channel or on the way there |
| GuiInvoke.ReplyReachesWaiting | copad-daemon/src/gui_registry.rs:163-195 | a taken sender used while its call still waits delivers exactly that reply |
| GuiInvoke.RepliesWereSent | copad-daemon/src/gui_registry.rs:163-215 | no reply is made up: one a call returns was sent for it with just that body, and a drain error means a disconnect |
| GuiInvoke.CallsReturn | copad-daemon/src/gui_registry.rs:126-175 | no schedule holds a call back: it always has a step of its own until it returns, at most four in all |
| ActionPool.ThreadPool.TryExecute | copad-core/src/thread_pool.rs:63-72 | a job is queued exactly while the pool is open and the queue has room |
| ActionPool.ThreadPool.Shutdown | copad-core/src/thread_pool.rs:90-92 | only the sender goes |
| ActionPool.ThreadPool.WorkerRound | copad-core/src/thread_pool.rs:112-121 | a round takes the oldest job, counts itself around running it, and ends the loop only on an empty closed queue |
| ActionPool.ThreadPool.Run | copad-core/src/action_registry.rs:265-270 | handler, completion event, responder, in that order; a panic stops after the handler |
| ActionPool.ThreadPool.Cancel | copad-core/src/action_registry.rs:272-285 | a rejected job publishes and answers `overloaded` |
| ActionPool.ThreadPool.TryDispatch | copad-core/src/action_registry.rs:172-217 | false leaves everything untouched, the responder uncalled; true runs inline, queues, spawns or cancels as registered |
| ActionPool.RoutesExactly | copad-core/src/action_registry.rs:172-217 | which thread carries a job, when it is cancelled as overloaded, and when it publishes |
| PoolRuns.PoolWithinBounds | copad-core/src/thread_pool.rs:44-121 | under every schedule the queue stays within capacity and the active count within the number of workers |
| PoolRuns.AnsweredOnce | copad-core/src/action_registry.rs:172-285 | the whole history of a dispatch: a returned handler is followed by one completion event unless silent and then by one answer with the same outcome; a panic by neither; before it is done nothing is answered |
| PoolRuns.CancelledIsOverloaded | copad-core/src/action_registry.rs:272-285 | a cancelled dispatch has no other outcome than `overloaded` |
| PoolRuns.OutcomeIsTheHandlers | copad-core/src/action_registry.rs:265-270 | under every schedule what is published and answered is what the handler of that dispatch returned |
| PoolRuns.TakenInOrder | copad-core/src/thread_pool.rs:63-121 | accepted jobs start in the order accepted, each once, and none disappears |
| PoolRuns.ShutdownRunsEverything | copad-core/src/thread_pool.rs:90-121 | once the workers have left after a shutdown, every accepted job ran its handler exactly once and was answered unless it panicked |
| PoolRuns.ClosedStaysClosed | copad-core/src/thread_pool.rs:63-92 | nothing is accepted after a shutdown |
| PoolProgress.EveryDispatchGetsOn | copad-core/src/action_registry.rs:172-285 | at every moment of every run a dispatch that is not over leaves some step to take, its own or a worker's, whatever its handler does, and taking it leaves less to do |
| PoolProgress.WorkShrinks | copad-core/src/thread_pool.rs:112-121 | every step but a new dispatch or a shutdown leaves strictly less to do |
| PoolProgress.WorkRunsOut | copad-core/src/thread_pool.rs:112-121 | from any reachable state, without new dispatches and shutdown, no schedule takes more steps than there is work left |
| PoolProgress.IdleMeansOver | copad-core/src/action_registry.rs:172-285 | when nothing but a new dispatch or a shutdown can be done, every dispatch is over |
| Calendar.YmdMonthIsTheMonth | copad-core/src/runledger.rs:154-172 | for every positive timestamp the computed year and month are the unique ones whose first day is at or before the day and whose next month begins after it, counting months one by one from 1970 with the leap-year rule of Appendix C of RFC 3339 |
| Calendar.MonthIsUnique | copad-core/src/runledger.rs:154-172 | a day lies in one month only |
| Calendar.MonthIsMonotone | copad-core/src/runledger.rs:154-172 | later timestamps never fall in earlier months, over all timestamps |
| Runledger.LedgerFiles.Append | copad-core/src/runledger.rs:55-83 | success adds one line to the file of the entry's own month, failure adds none anywhere |
| Runledger.LedgerFiles.Replay | copad-core/src/runledger.rs:88-134 | the entries that pass, newest first and cut to the limit, and their number before the cut; unreadable files and lines are passed over |
| Runledger.KeepExactly | copad-core/src/runledger.rs:88-134 | which entries pass: not older than asked for, of a kind named or going on from what stands before a final star |
| Runledger.ReplayExactly | copad-core/src/runledger.rs:88-134 | an entry is replayed if and only if it passes and stands in a line of a file that could be read |
| Runledger.SortIsStable | copad-core/src/runledger.rs:128-129 | the result is in descending time, and entries of one instant keep their order |
| Runledger.SortedIsUnique | copad-core/src/runledger.rs:128-129 | there is only one such arrangement |
| Runledger.ReplayIsTheLog | copad-core/src/runledger.rs:55-134 | on files the ledger wrote, replay gives the appended entries that pass the filter, newest first, in whatever order the files are read and whether or not months before `since` are read |
| CronScheduler.CronState.Reload | copad-daemon/src/cron_scheduler.rs:68-106 | exactly the schedules that parse, in order, each with its next fire after the moment the clock was read for it, under a new generation |
| CronLaws.CompiledExactly | copad-daemon/src/cron_scheduler.rs:68-106 | exactly the schedules that parse, in order, each with the first slot after its own clock reading |
| CronScheduler.CronState.Sweep | copad-daemon/src/cron_scheduler.rs:148-166 | what a partition decides, which schedules advance, and the earliest next fire that remains |
| CronLaws.DecidedExactly | copad-daemon/src/cron_scheduler.rs:148-166 | a sweep decides every slot due and no other: to fire it if it is at most five seconds old, else to skip it |
| CronLaws.AdvancedExactly | copad-daemon/src/cron_scheduler.rs:148-166 | each schedule that was due goes on with its first slot after the sweep, and the others stay |
| CronScheduler.HorizonIsLeast | copad-daemon/src/cron_scheduler.rs:167 | the horizon is the least next fire of the schedules, and absent exactly when none has one |
| CronLaws.SweepsAgainExactly | copad-daemon/src/cron_scheduler.rs:210-214 | a worker goes to sleep right after a sweep exactly when nothing was due |
| CronRuns.SlotsStrictlyIncrease | copad-daemon/src/cron_scheduler.rs:148-166 | with a non-decreasing clock and between reloads the slots decided for a schedule strictly increase; the next one decided is the first the schedule has after the moment of the previous decision, so no slot after that moment is passed over; a slot is decided to be fired exactly when at most five seconds old, and to be skipped otherwise |
| CronRuns.FiredOrSkipped | copad-daemon/src/cron_scheduler.rs:148-206 | after every run, when the worker has no batch in hand and has not left for a shutdown: a slot decided in the generation in force has been dispatched if and only if it was at most five seconds old when decided, and was skipped otherwise |
| CronRuns.BatchGetsDone | copad-daemon/src/cron_scheduler.rs:178-206 | a worker with a batch in hand always has its next step, which leaves less of it, and no other step leaves more |
| CronRuns.DispatchedOnce | copad-daemon/src/cron_scheduler.rs:175-206 | only slots decided to fire are dispatched, each once, in order and not before the decision, so a skipped slot never is |
| CronRuns.AtMostOneStaleDispatch | copad-daemon/src/cron_scheduler.rs:175-206 | once a reload is installed at most one dispatch of an older generation still happens |
| CronLaws.ShutdownEnds | copad-daemon/src/cron_scheduler.rs:134-234 | after a shutdown nothing more is decided, and the worker is at most three steps of its own from leaving, which no other step puts off |
| CronLaws.AtMostOneLastDispatch | copad-daemon/src/cron_scheduler.rs:175-206 | after a shutdown at most one dispatch still happens |
| CronSleep.FallsAsleepBehindExactly | copad-daemon/src/cron_scheduler.rs:214-234 | for every run: the worker falls asleep on schedules a reload has replaced if and only if the swept ones have no next fire, a reload came since the sweep, and there is no shutdown |
| CronSleep.TimedSleepIsCurrent | copad-daemon/src/cron_scheduler.rs:225-234 | a timed sleep starts on the schedules in force and lasts until their earliest next fire, plus what passed since the sweep |
| CronSleep.NotifiedExactly | copad-daemon/src/cron_scheduler.rs:101-116 | after every run a sleeping worker has been notified if and only if a reload or the shutdown came after it went to sleep |
| CronSleep.ReloadWakesSleeper | copad-daemon/src/cron_scheduler.rs:101-106 | a reload installed while the worker sleeps wakes it, to the new schedules |
| CronLaws.WakesInTime | copad-daemon/src/cron_scheduler.rs:225-234 | a sleep with a time ends when the time has come, and the worker sweeps again |
| CronSleep.SleepsOn | copad-daemon/src/cron_scheduler.rs:214-234 | a sleeper nobody notified stays asleep until its time, and without a time for good, barring a spurious wake-up |
| CronSleep.DormantSleepMissesReload | copad-daemon/src/cron_scheduler.rs:214-224 | a run in which a worker without a next fire parks just after a reload and sleeps past the new slot |
| CronSleep.DispatchCanBeLate | copad-daemon/src/cron_scheduler.rs:178-206 | a run in which a slot is dispatched as late as one likes after its time |

## Left out

- Text of error and log messages: an error is a constructor, with the data a caller can see.
- JSON, TOML and YAML: values are a datatype, rendering a structured value as text is a parameter, and a ledger line is an entry or unreadable.
- Numbers: number tokens keep their text and comparison is over reals, so rounding of 64-bit floats is not modelled.
- 64-bit wrap-around of generations, counters and ids, and poisoned locks.
- Sockets, the `Link` thread, channels, condition variables and sleeping are environment steps; a failed open delivers no events, `Closed` comes last and once.
- How `Model::apply` computes a model from a server message: the new model is an input of the step. copad-mux-proto is not part of this model.
- MuxHost.Host.OnMessage: leaves out replies to requests, what they do to previews and graph pages, and the revisions of the graph and agents topics.
- MuxHost.Host.BeginEpoch: leaves out the reset of previews and graph pages, the connection epoch number and the error text.
- MuxHost.Host.OnClosed: leaves out the reset of previews and graph pages and the error text kept for display.
- The polling of previews and graphs and the incarnation stamp of parked Ready messages in comux-host/src/muxhost.rs.
- Runledger.LedgerFiles.Append: a write either adds its whole line or nothing; one that stops half-way would leave a torn line that swallows the next entry appended to that file.
- `Drop` of `MuxHost`, which stops the connection thread and closes the link; `act`, `open`, `command` and the graph requests of comux-host/src/muxhost.rs, which only send; and `take_focus_request`, which takes a focus request away.
- The iteration order of hash maps: drains pick receivers and pending calls in any order.
- Sinks, handlers, clocks, context snapshots, fresh ids and file errors are inputs; an engine always has a bus to publish awaited events on.
- The table from method names to capabilities and per-method timeouts in copad-daemon/src/gui_registry.rs: `Route` takes the capability.
- The event forwarder and GUI environment filter of copad-daemon/src/gui_registry.rs.
- `ActionRegistry::invoke` and `try_invoke`, which are the inline path without a responder, and registration of handlers.
- Joining of workers when a `ThreadPool` is dropped.
- Slots of a cron schedule that pass between a slot and the moment the worker decides about it: the code neither fires nor reports them, and no statement here is about them.
- The cron worker's wait is measured on the same clock as its schedules; a wall clock that is set back or forward is not modelled.
- Parsing of cron expressions: a schedule is a function from a time to the first slot strictly after it, or none.
- GTK, AppKit, iOS, browser and FFI layers, the command line, themes, paths, sessions, redaction of captured designs: marshalling and one-branch code.
