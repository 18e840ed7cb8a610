/**
 Whole runs of the trigger engine: what one dispatch may do to the await pools, that events from
 outside stay outside unless a trigger opts in, and that every action call was allowed.
 */
module TriggerRuns {
  import opened Prelude
  import opened Values
  import opened AwaitPools
  import opened AwaitLifecycle
  import opened TriggerEngine
  import opened AwaitLaws

  datatype Input =
    | Dispatch(event: Event, context: Option<Context>, replies: nat -> Reply)
    | Cron(trigger: Trigger, context: Option<Context>)
    | Sweep(now: nat)
    | Reload(triggers: seq<Trigger>)

  function After(s: EngineState, i: Input, json: Json): EngineState {
    match i
    case Dispatch(event, context, replies) => Dispatched(s, event, context, replies, json)
    case Cron(t, context) => CronDispatched(s, t, context, json)
    case Sweep(now) => Swept(s, now)
    case Reload(ts) => Reloaded(s, ts, json)
  }

  function EngineRun(s: EngineState, inputs: seq<Input>, json: Json): EngineState {
    if inputs == [] then s else After(EngineRun(s, inputs[..|inputs| - 1], json), inputs[|inputs| - 1], json)
  }

  // ----- what one dispatch does to the pools -----

  /** Firing only appends: new preflights, each with a new id, behind the old ones. */
  ghost predicate OnlyRegisters(before: Pools, after: Pools) {
    && before.preflight <= after.preflight
    && (forall k :: |before.preflight| <= k < |after.preflight| ==> before.nextId <= after.preflight[k].id)
    && before.nextId <= after.nextId
    && after.pending == before.pending && after.outbox == before.outbox
    && after.published == before.published && after.ended == before.ended
  }

  lemma {:induction false} FiredOnlyRegisters(
      s: EngineState, snapshot: seq<Compiled>, n: nat, event: Event, context: Option<Context>,
      replies: nat -> Reply, json: Json)
    requires n <= |snapshot|
    ensures OnlyRegisters(s.pools, Fired(s, snapshot, n, event, context, replies, json).pools)
    ensures Fired(s, snapshot, n, event, context, replies, json).triggers == s.triggers
  {
    if n == 0 {
    } else {
      FiredOnlyRegisters(s, snapshot, n - 1, event, context, replies, json);
    }
  }

  /** One dispatched event takes at most one preflight (the head of the queue it announces) and at
      most one pending entry (the oldest match), and neither is one it registers itself: those all
      come after, with new ids, at the end of the preflight list. */
  lemma DispatchFrame(s: EngineState, event: Event, context: Option<Context>, replies: nat -> Reply, json: Json)
    requires event.origin.Internal? && s.pools.outbox == []
    ensures var advanced := Advanced(s.pools, event, json);
            var matched := Matched(advanced, event);
            var after := Dispatched(s, event, context, replies, json).pools;
            && |advanced.preflight| >= |s.pools.preflight| - 1
            && |matched.pending| >= |advanced.pending| - 1
            && after.pending == matched.pending && after.published == s.pools.published + matched.outbox
            && |matched.outbox| <= 1
            && advanced.preflight <= after.preflight
            && (forall k :: |advanced.preflight| <= k < |after.preflight| ==> s.pools.nextId <= after.preflight[k].id)
  {
    var passed := AwaitPasses(s.pools, event, json);
    FiredOnlyRegisters(s.(pools := passed), s.triggers, |s.triggers|, event, context, replies, json);
  }

  /** The action registry says that `action` is over, or that it succeeded. */
  predicate Completes(event: Event, action: string) {
    event.source == "copad.action" && event.kind == action + ".completed"
  }

  predicate Reports(event: Event, action: string) {
    Completes(event, action) || (event.source == "copad.action" && event.kind == action + ".failed")
  }

  /** Advancing takes at most one preflight entry, of the action announced, and what it adds to the
      pending list is that entry under its own id. */
  lemma AdvanceMoves(s: Pools, event: Event, json: Json)
    ensures var after := Advanced(s, event, json);
            && (forall p, q :: p in s.preflight && p !in after.preflight && q in s.preflight && q !in after.preflight
                  ==> p == q && Reports(event, p.action))
            && (forall p :: p in after.preflight ==> p in s.preflight)
            && s.pending <= after.pending
            && (forall q :: q in after.pending && q !in s.pending ==>
                  exists p :: p in s.preflight && p.id == q.id && Completes(event, p.action))
            && after.outbox == s.outbox && after.published == s.published
  {
    if Announces(event).Some? {
      var c := Announces(event).value;
      AnnouncesExactly(event, c.action, c.success);
      var i := FirstIndex(s.preflight, RunsAction(c.action));
      if i < |s.preflight| {
        AdvancedAt(s, event, json, i);
      }
    }
  }

  lemma AdvancedAt(s: Pools, event: Event, json: Json, i: nat)
    requires Announces(event).Some? && i < |s.preflight|
    requires i == FirstIndex(s.preflight, RunsAction(Announces(event).value.action))
    ensures var next := Advanced(s, event, json);
            && next.preflight == RemoveAt(s.preflight, i) && s.preflight[i] in s.preflight
            && s.preflight[i].action == Announces(event).value.action
            && (forall p :: p in s.preflight && p !in next.preflight ==> p == s.preflight[i])
            && (forall q :: q in next.pending && q !in s.pending ==>
                  q.id == s.preflight[i].id && Announces(event).value.success)
  {
    assert RunsAction(Announces(event).value.action)(s.preflight[i]);
    forall p | p in s.preflight && p != s.preflight[i]
      ensures p in RemoveAt(s.preflight, i)
    {
      OthersRemain(s.preflight, i, p);
    }
  }

  /** Matching takes at most one pending entry, one that awaits the event, and announces just it. */
  lemma MatchMoves(s: Pools, event: Event)
    ensures var after := Matched(s, event);
            && after.preflight == s.preflight && after.published == s.published
            && (forall q :: q in after.pending ==> q in s.pending)
            && (forall p, q :: p in s.pending && p !in after.pending && q in s.pending && q !in after.pending ==>
                  p == q && Awaits(p, event) && after.outbox == s.outbox + [Resolution(p, event)])
            && (after.outbox != s.outbox ==>
                  exists p :: p in s.pending && Awaits(p, event) && after.outbox == s.outbox + [Resolution(p, event)])
  {
    var i := FirstIndex(s.pending, AwaitsEvent(event));
    if i < |s.pending| {
      AroundAt(s.pending, i);
      assert s.pending[i] in s.pending && AwaitsEvent(event)(s.pending[i]);
    }
  }

  /** At most one entry is taken, of the action announced, and every new one has a new id. */
  ghost predicate PreflightMoves(before: seq<Preflight>, after: seq<Preflight>, event: Event, nextId: nat) {
    && (forall p, q :: p in before && p !in after && q in before && q !in after ==>
          p == q && Reports(event, p.action))
    && (forall p :: p in after && p !in before ==> p.id >= nextId)
  }

  /** At most one entry is taken, one that awaits the event, and then just its resolution is said;
      every new one was in preflight under its id, for the action that succeeded. */
  ghost predicate PendingMoves(
      preflight: seq<Preflight>, before: seq<Pending>, after: seq<Pending>, event: Event, said: seq<Emission>)
  {
    && |said| <= 1
    && (forall p, q :: p in before && p !in after && q in before && q !in after ==>
          p == q && Expects(p, event) && said == [Resolution(p, event)])
    && (forall q :: q in after && q !in before ==>
          exists p :: p in preflight && p.id == q.id && Completes(event, p.action))
  }

  /** The preflight half of a dispatch, firing included. */
  lemma DispatchMovesPreflight(
      s: EngineState, event: Event, context: Option<Context>, replies: nat -> Reply, json: Json)
    requires event.origin.Internal? && s.pools.outbox == []
    ensures PreflightMoves(s.pools.preflight, Dispatched(s, event, context, replies, json).pools.preflight,
                           event, s.pools.nextId)
  {
    var advanced := Advanced(s.pools, event, json);
    var after := Dispatched(s, event, context, replies, json).pools;
    AdvanceMoves(s.pools, event, json);
    DispatchFrame(s, event, context, replies, json);
    forall p | p in advanced.preflight
      ensures p in after.preflight
    {
      var k :| 0 <= k < |advanced.preflight| && advanced.preflight[k] == p;
      assert after.preflight[k] == p;
    }
    forall p | p in after.preflight && p !in s.pools.preflight
      ensures p.id >= s.pools.nextId
    {
      assert after.preflight == advanced.preflight + after.preflight[|advanced.preflight|..];
      var k :| 0 <= k < |after.preflight[|advanced.preflight|..]|
               && after.preflight[|advanced.preflight|..][k] == p;
      assert after.preflight[|advanced.preflight| + k] == p;
    }
  }

  /** The pending half: firing leaves the pending list alone. */
  lemma PassesMovePending(before: Pools, event: Event, json: Json)
    requires before.outbox == []
    ensures var matched := Matched(Advanced(before, event, json), event);
            PendingMoves(before.preflight, before.pending, matched.pending, event, matched.outbox)
  {
    var advanced := Advanced(before, event, json);
    AdvanceMoves(before, event, json);
    MatchMoves(advanced, event);
    PendingKept(before, advanced);
    forall p | Awaits(p, event)
      ensures Expects(p, event)
    {
      AwaitsExactly(p, event);
    }
  }

  /** What one dispatched event does to the entries of the pools. It takes at most one entry out of
      preflight, of the action it announces. It takes at most one out of pending, one that awaits it,
      whose resolution is then all it publishes, and never publishes more than one. What is new in
      pending was in preflight, under the same id; what is new in preflight has a new id. */
  lemma DispatchMoves(s: EngineState, event: Event, context: Option<Context>, replies: nat -> Reply, json: Json)
    returns (said: seq<Emission>)
    requires event.origin.Internal? && s.pools.outbox == []
    ensures var before, after := s.pools, Dispatched(s, event, context, replies, json).pools;
            && PreflightMoves(before.preflight, after.preflight, event, before.nextId)
            && PendingMoves(before.preflight, before.pending, after.pending, event, said)
            && after.published == before.published + said
  {
    said := Matched(Advanced(s.pools, event, json), event).outbox;
    PassesMovePending(s.pools, event, json);
    DispatchFrame(s, event, context, replies, json);
    DispatchMovesPreflight(s, event, context, replies, json);
  }

  lemma PendingKept(before: Pools, advanced: Pools)
    requires before.pending <= advanced.pending
    ensures forall p :: p in before.pending ==> p in advanced.pending
  {
    forall p | p in before.pending
      ensures p in advanced.pending
    {
      var k :| 0 <= k < |before.pending| && before.pending[k] == p;
      assert advanced.pending[k] == p;
    }
  }

  // ----- external events -----

  /** Whatever the triggers, an external event removes and alters no pool entry and announces none. */
  lemma ExternalOnlyAppends(s: EngineState, event: Event, context: Option<Context>, replies: nat -> Reply, json: Json)
    requires event.origin.External?
    ensures OnlyRegisters(s.pools, Dispatched(s, event, context, replies, json).pools)
  {
    FiredOnlyRegisters(s, s.triggers, |s.triggers|, event, context, replies, json);
  }

  predicate NoOptIn(cts: seq<Compiled>) {
    forall i :: 0 <= i < |cts| ==> !cts[i].trigger.security.acceptExternal
  }

  predicate NoOptInConfigured(ts: seq<Trigger>) {
    forall i :: 0 <= i < |ts| ==> !ts[i].security.acceptExternal
  }

  lemma {:induction false} FiresNothing(
      s: EngineState, snapshot: seq<Compiled>, n: nat, event: Event, context: Option<Context>,
      replies: nat -> Reply, json: Json)
    requires n <= |snapshot| && event.origin.External? && NoOptIn(snapshot)
    ensures Fired(s, snapshot, n, event, context, replies, json) == s
  {
    if n == 0 {
    } else {
      FiresNothing(s, snapshot, n - 1, event, context, replies, json);
    }
  }

  lemma {:induction false} CompileKeepsNoOptIn(ts: seq<Trigger>, json: Json)
    requires NoOptInConfigured(ts)
    ensures NoOptIn(Compile(ts, json))
  {
    if ts == [] {
    } else {
      CompileKeepsNoOptIn(ts[..|ts| - 1], json);
    }
  }

  predicate IsExternal(i: Input) {
    i.Dispatch? && i.event.origin.External?
  }

  function Erased(inputs: seq<Input>): seq<Input> {
    if inputs == [] then []
    else
      var last := inputs[|inputs| - 1];
      Erased(inputs[..|inputs| - 1]) + if IsExternal(last) then [] else [last]
  }

  lemma AfterKeepsNoOptIn(s: EngineState, i: Input, json: Json)
    requires NoOptIn(s.triggers) && (i.Reload? ==> NoOptInConfigured(i.triggers))
    ensures NoOptIn(After(s, i, json).triggers)
  {
    match i
    case Dispatch(event, context, replies) =>
      FiredOnlyRegisters(s.(pools := AwaitPasses(s.pools, event, json)), s.triggers, |s.triggers|,
                         event, context, replies, json);
    case Reload(ts) => CompileKeepsNoOptIn(ts, json);
    case _ =>
  }

  /** If no configured trigger accepts external events, deleting every external event from a run
      changes nothing: same pools, same action calls, same published events. */
  lemma {:induction false} ExternalErasure(s: EngineState, inputs: seq<Input>, json: Json)
    requires NoOptIn(s.triggers)
    requires forall i :: i in inputs && i.Reload? ==> NoOptInConfigured(i.triggers)
    ensures EngineRun(s, inputs, json) == EngineRun(s, Erased(inputs), json)
    ensures NoOptIn(EngineRun(s, inputs, json).triggers)
  {
    if inputs == [] {
    } else {
      var before := inputs[..|inputs| - 1];
      var last := inputs[|inputs| - 1];
      ExternalErasure(s, before, json);
      var r := EngineRun(s, before, json);
      AfterKeepsNoOptIn(r, last, json);
      if IsExternal(last) {
        FiresNothing(r, r.triggers, |r.triggers|, last.event, last.context, last.replies, json);
        assert Erased(inputs) == Erased(before);
      } else {
        assert (Erased(before) + [last])[..|Erased(before)|] == Erased(before);
      }
    }
  }

  // ----- calls -----

  /** Every call behind an external event was opted in to, and so was every call of a program. */
  ghost predicate AllTrusted(calls: seq<Call>) {
    forall c :: c in calls ==>
      && (c.origin == External ==> c.trigger.security.acceptExternal)
      && (c.trigger.action == "system.spawn" ==> c.trigger.security.allowPrivileged)
  }

  lemma {:induction false} FiredTrusted(
      s: EngineState, snapshot: seq<Compiled>, n: nat, event: Event, context: Option<Context>,
      replies: nat -> Reply, json: Json)
    requires n <= |snapshot| && AllTrusted(s.calls)
    ensures AllTrusted(Fired(s, snapshot, n, event, context, replies, json).calls)
  {
    if n == 0 {
    } else {
      FiredTrusted(s, snapshot, n - 1, event, context, replies, json);
    }
  }

  /** In every run, every action call was made by a trigger that accepts events of that origin and,
      for a privileged action, has opted in. */
  lemma {:induction false} CallsAreTrusted(inputs: seq<Input>, json: Json)
    ensures AllTrusted(EngineRun(START, inputs, json).calls)
  {
    if inputs == [] {
    } else {
      var before := inputs[..|inputs| - 1];
      CallsAreTrusted(before, json);
      var r := EngineRun(START, before, json);
      match inputs[|inputs| - 1]
      case Dispatch(event, context, replies) =>
        FiredTrusted(r.(pools := AwaitPasses(r.pools, event, json)), r.triggers, |r.triggers|,
                     event, context, replies, json);
      case _ =>
    }
  }

  // ----- registrations over whole runs -----

  lemma FlushAccounts(s: Pools, id: nat)
    requires Accounted(s, id)
    ensures Accounted(Flushed(s), id)
  {
    CountConcat(s.published, s.outbox, EmissionId(id));
  }

  lemma {:induction false} FiredAccounts(
      s: EngineState, snapshot: seq<Compiled>, n: nat, event: Event, context: Option<Context>,
      replies: nat -> Reply, json: Json, id: nat)
    requires n <= |snapshot| && Accounted(s.pools, id)
    ensures Accounted(Fired(s, snapshot, n, event, context, replies, json).pools, id)
  {
    if n == 0 {
    } else {
      FiredAccounts(s, snapshot, n - 1, event, context, replies, json, id);
      var ct := snapshot[n - 1];
      var r := Fired(s, snapshot, n - 1, event, context, replies, json);
      if Passes(ct, event, context) && replies(n - 1).ok && ct.trigger.awaits.Some? {
        RegisterAccounts(r.pools, ct.trigger.name, ct.trigger.action, ct.trigger.awaits.value,
                         event, context, replies(n - 1).now, id);
      }
    }
  }

  lemma AfterAccounts(s: EngineState, i: Input, json: Json, id: nat)
    requires Accounted(s.pools, id)
    ensures Accounted(After(s, i, json).pools, id)
  {
    match i
    case Dispatch(event, context, replies) =>
      if event.origin.Internal? {
        AdvanceAccounts(s.pools, event, json, id);
        MatchAccounts(Advanced(s.pools, event, json), event, id);
        FlushAccounts(Matched(Advanced(s.pools, event, json), event), id);
      }
      FiredAccounts(s.(pools := AwaitPasses(s.pools, event, json)), s.triggers, |s.triggers|,
                    event, context, replies, json, id);
    case Sweep(now) =>
      SweepPreflightAccounts(s.pools, now, id);
      SweepPendingAccounts(SweptPreflight(s.pools, now), now, id);
      FlushAccounts(SweptPending(SweptPreflight(s.pools, now), now), id);
    case Reload(ts) =>
      ClearAccounts(s.pools, id);
      ClearAccounts(PreflightCleared(s.pools), id);
    case Cron(_, _) =>
  }

  /** In every run of the engine each registration is in exactly one place, and its awaited event is
      published once if it ended emitted and never otherwise. */
  lemma {:induction false} EngineConservesRegistrations(inputs: seq<Input>, json: Json, id: nat)
    ensures var s := EngineRun(START, inputs, json).pools;
            && s.outbox == []
            && Places(s, id) == (if id < s.nextId then 1 else 0)
            && Count(s.published, EmissionId(id)) == Count(s.ended, EmittedId(id)) <= 1
  {
    EngineAccounts(inputs, json, id);
    var s := EngineRun(START, inputs, json).pools;
    EmittedIsSlip(s.ended, id);
    assert Count(s.outbox, EmissionId(id)) == 0;
  }

  lemma {:induction false} EngineAccounts(inputs: seq<Input>, json: Json, id: nat)
    ensures Accounted(EngineRun(START, inputs, json).pools, id)
    ensures EngineRun(START, inputs, json).pools.outbox == []
  {
    if inputs == [] {
    } else {
      var before := inputs[..|inputs| - 1];
      EngineAccounts(before, json, id);
      var r := EngineRun(START, before, json);
      AfterAccounts(r, inputs[|inputs| - 1], json, id);
      if inputs[|inputs| - 1].Dispatch? {
        var i := inputs[|inputs| - 1];
        FiredOnlyRegisters(r.(pools := AwaitPasses(r.pools, i.event, json)), r.triggers, |r.triggers|,
                           i.event, i.context, i.replies, json);
      }
    }
  }
}
