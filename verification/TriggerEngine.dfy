/**
 The trigger engine: triggers compiled from configuration, the gates a trigger passes before its
 action is called, and the await pools around it. `EngineState` is the value, `TriggerEngine` the
 object that updates it in place. The sink's answers and the clock come in as `Reply` values.
 */
module TriggerEngine {
  import opened Prelude
  import opened Values
  import opened AwaitPools
  import Glob
  import Interpolation
  import Syntax = ConditionSyntax
  import ConditionText
  import ConditionEval

  datatype When = When(kind: string, payloadMatch: map<string, Value>)

  datatype Security = Security(acceptExternal: bool, allowPrivileged: bool)

  datatype Trigger = Trigger(
    name: string, source: Option<When>, cron: Option<string>, action: string, params: Value,
    condition: Option<string>, awaits: Option<AwaitClause>, security: Security)

  datatype Compiled = Compiled(trigger: Trigger, condition: Option<Syntax.Expr>)

  /** The sink's answer to one call, and the clock when it came. */
  datatype Reply = Reply(ok: bool, now: nat)

  /** A call of the sink, with the trigger that made it and the origin of the event behind it. */
  datatype Call = Call(trigger: Trigger, params: Value, origin: Origin)

  datatype EngineState = EngineState(triggers: seq<Compiled>, pools: Pools, calls: seq<Call>)

  const START := EngineState([], EMPTY_POOLS, [])

  type Json = Value -> string

  // ----- configuration -----

  predicate Contains(s: string, part: string) {
    part <= s || (s != "" && Contains(s[1..], part))
  }

  /** Exactly one source; a cron trigger has no event to test, to await or to quote. */
  predicate ValidSource(t: Trigger, json: Json) {
    if t.source.Some? then t.cron.None?
    else
      t.cron.Some? && t.condition.None? && t.awaits.None?
      && !Contains(json(t.params), "{event.") && !Contains(json(t.params), "{action_result.")
  }

  function CompileOne(t: Trigger, json: Json): Option<Compiled> {
    if !ValidSource(t, json) then None
    else if t.condition.None? then Some(Compiled(t, None))
    else
      match ConditionText.ParseText(t.condition.value)
      case Err(_) => None
      case Ok(e) => Some(Compiled(t, Some(e)))
  }

  /** A trigger that is invalid or whose condition does not parse drops only itself. */
  function Compile(ts: seq<Trigger>, json: Json): seq<Compiled> {
    if ts == [] then []
    else
      var last := CompileOne(ts[|ts| - 1], json);
      Compile(ts[..|ts| - 1], json) + if last.Some? then [last.value] else []
  }

  // ----- gates -----

  predicate IsPrivileged(action: string) {
    action == "system.spawn"
  }

  predicate Matches(t: Trigger, event: Event) {
    t.source.Some? && Glob.PatternMatches(t.source.value.kind, event.kind)
    && PayloadMatches(t.source.value.payloadMatch, event.payload)
  }

  predicate Trusted(t: Trigger, origin: Origin) {
    (origin.External? ==> t.security.acceptExternal) && (IsPrivileged(t.action) ==> t.security.allowPrivileged)
  }

  /** An evaluation error counts as no match. */
  predicate ConditionHolds(ct: Compiled, event: Event, context: Option<Context>) {
    ct.condition.None? || ConditionEval.Eval(ct.condition.value, event, context) == Ok(true)
  }

  predicate Passes(ct: Compiled, event: Event, context: Option<Context>) {
    Matches(ct.trigger, event) && Trusted(ct.trigger, event.origin) && ConditionHolds(ct, event, context)
  }

  function Params(t: Trigger, event: Event, context: Option<Context>, json: Json): Value {
    Interpolation.InterpolatedValue(t.params, Interpolation.Env(event, context, None, json))
  }

  // ----- what each operation does -----

  function Awaiting(s: Pools, t: Trigger, event: Event, context: Option<Context>, now: nat): Pools {
    if t.awaits.None? then s else Registered(s, t.name, t.action, t.awaits.value, event, context, now)
  }

  function FiredOne(
      s: EngineState, ct: Compiled, event: Event, context: Option<Context>, reply: Reply, json: Json): EngineState
  {
    if !Passes(ct, event, context) then s
    else
      s.(calls := s.calls + [Call(ct.trigger, Params(ct.trigger, event, context, json), event.origin)],
         pools := if reply.ok then Awaiting(s.pools, ct.trigger, event, context, reply.now) else s.pools)
  }

  /** The first `n` triggers of the snapshot, in order. */
  function Fired(
      s: EngineState, snapshot: seq<Compiled>, n: nat, event: Event, context: Option<Context>,
      replies: nat -> Reply, json: Json): EngineState
    requires n <= |snapshot|
  {
    if n == 0 then s
    else
      FiredOne(Fired(s, snapshot, n - 1, event, context, replies, json),
               snapshot[n - 1], event, context, replies(n - 1), json)
  }

  /** How many of the first `n` triggers passed their gates and got a good reply. */
  function Successes(
      snapshot: seq<Compiled>, n: nat, event: Event, context: Option<Context>, replies: nat -> Reply): nat
    requires n <= |snapshot|
  {
    if n == 0 then 0
    else
      Successes(snapshot, n - 1, event, context, replies)
      + if Passes(snapshot[n - 1], event, context) && replies(n - 1).ok then 1 else 0
  }

  function Flushed(s: Pools): Pools {
    s.(published := s.published + s.outbox, outbox := [])
  }

  /** The await passes run before any trigger fires, and never for an external event. */
  function AwaitPasses(s: Pools, event: Event, json: Json): Pools {
    if event.origin.External? then s else Flushed(Matched(Advanced(s, event, json), event))
  }

  function Dispatched(
      s: EngineState, event: Event, context: Option<Context>, replies: nat -> Reply, json: Json): EngineState
  {
    Fired(s.(pools := AwaitPasses(s.pools, event, json)), s.triggers, |s.triggers|, event, context, replies, json)
  }

  function CronDispatched(s: EngineState, t: Trigger, context: Option<Context>, json: Json): EngineState {
    if IsPrivileged(t.action) && !t.security.allowPrivileged then s
    else
      var event := Event("cron." + t.name, COMPLETION_SOURCE, 0, Null, None, Internal);
      s.(calls := s.calls + [Call(t, Params(t, event, context, json), Internal)])
  }

  function Swept(s: EngineState, now: nat): EngineState {
    s.(pools := Flushed(SweptPending(SweptPreflight(s.pools, now), now)))
  }

  function Reloaded(s: EngineState, ts: seq<Trigger>, json: Json): EngineState {
    s.(triggers := Compile(ts, json), pools := PendingCleared(PreflightCleared(s.pools)))
  }

  // ----- the object -----

  class TriggerEngine {
    const json: Json
    var triggers: seq<Compiled>
    var preflight: seq<Preflight>
    var pending: seq<Pending>
    var published: seq<Emission>
    var calls: seq<Call>
    // history
    var nextId: nat
    var due: map<nat, nat>
    var ended: seq<Slip>

    function PoolsView(outbox: seq<Emission>): Pools
      reads this
    {
      Pools(preflight, pending, outbox, published, nextId, due, ended)
    }

    function View(): EngineState
      reads this
    {
      EngineState(triggers, PoolsView([]), calls)
    }

    constructor (json: Json)
      ensures View() == START && this.json == json
    {
      this.json := json;
      triggers, preflight, pending, published, calls := [], [], [], [], [];
      nextId, due, ended := 0, map[], [];
    }

    method SetTriggers(ts: seq<Trigger>)
      modifies this
      ensures View() == Reloaded(old(View()), ts, json)
    {
      var compiled: seq<Compiled> := [];
      var i := 0;
      while i < |ts|
        invariant 0 <= i <= |ts|
        invariant compiled == Compile(ts[..i], json)
      {
        assert ts[..i + 1][..i] == ts[..i];
        var c := CompileOne(ts[i], json);
        if c.Some? {
          compiled := compiled + [c.value];
        }
        i := i + 1;
      }
      assert ts[..i] == ts;
      triggers := compiled;
      ended := ended + PreflightSlips(preflight, true);
      preflight := [];
      ended := ended + PendingSlips(pending, true);
      pending := [];
    }

    /** On a completion, the first preflight of that action becomes pending or is dropped. */
    method PromoteOrDrop(event: Event)
      modifies this
      ensures View() == old(View()).(pools := Advanced(old(View()).pools, event, json))
    {
      var c := Announces(event);
      if c.None? {
        return;
      }
      var i := FirstIndex(preflight, RunsAction(c.value.action));
      if i == |preflight| {
        return;
      }
      var p := preflight[i];
      preflight := RemoveAt(preflight, i);
      if !c.value.success {
        ended := ended + [Slip(p.id, Failed)];
        return;
      }
      pending := pending + [Promoted(p, event.payload, json)];
    }

    /** The oldest pending entry that matches is taken; its event is left for the caller to publish
        outside the lock. */
    method TakeMatch(event: Event) returns (emit: seq<Emission>)
      modifies this
      ensures EngineState(triggers, PoolsView(emit), calls)
              == old(View()).(pools := Matched(old(View()).pools, event))
    {
      emit := [];
      var i := 0;
      while i < |pending| && !Awaits(pending[i], event)
        invariant 0 <= i <= |pending|
        invariant forall k :: 0 <= k < i ==> !Awaits(pending[k], event)
      {
        i := i + 1;
      }
      if i < |pending| {
        var p := pending[i];
        emit := [Resolution(p, event)];
        pending := RemoveAt(pending, i);
        ended := ended + [Slip(p.id, Emitted)];
      }
    }

    method Publish(emit: seq<Emission>)
      modifies this`published
      ensures View() == old(View()).(pools := Flushed(old(PoolsView(emit))))
    {
      published := published + emit;
    }

    method RegisterAwait(t: Trigger, event: Event, context: Option<Context>, now: nat)
      modifies this
      ensures View() == old(View()).(pools := Awaiting(old(View()).pools, t, event, context, now))
    {
      if t.awaits.Some? {
        var aw := t.awaits.value;
        var deadline := now + aw.timeout;
        preflight := preflight
          + [Preflight(nextId, t.name, t.action, aw.kind, aw.payloadMatch, event, context, deadline, aw.policy)];
        due := due[nextId := deadline];
        nextId := nextId + 1;
      }
    }

    method PassAwaits(event: Event)
      modifies this
      ensures View() == old(View()).(pools := AwaitPasses(old(View()).pools, event, json))
    {
      if event.origin != External {
        PromoteOrDrop(event);
        var emit := TakeMatch(event);
        Publish(emit);
      }
    }

    method Dispatch(event: Event, context: Option<Context>, replies: nat -> Reply) returns (fired: nat)
      modifies this
      ensures View() == Dispatched(old(View()), event, context, replies, json)
      ensures fired == Successes(old(triggers), |old(triggers)|, event, context, replies)
    {
      PassAwaits(event);
      ghost var start := View();
      var snapshot := triggers;
      fired := 0;
      var i := 0;
      while i < |snapshot|
        invariant 0 <= i <= |snapshot| && triggers == snapshot
        invariant fired == Successes(snapshot, i, event, context, replies)
        invariant View() == Fired(start, snapshot, i, event, context, replies, json)
      {
        var success := FireOne(snapshot[i], event, context, replies(i));
        if success {
          fired := fired + 1;
        }
        i := i + 1;
      }
    }

    /** One trigger of the snapshot: gates, the call, and the registration its good reply earns. */
    method FireOne(ct: Compiled, event: Event, context: Option<Context>, reply: Reply) returns (success: bool)
      modifies this
      ensures View() == FiredOne(old(View()), ct, event, context, reply, json)
      ensures success <==> Passes(ct, event, context) && reply.ok
    {
      if !Passes(ct, event, context) {
        return false;
      }
      var params := Params(ct.trigger, event, context, json);
      calls := calls + [Call(ct.trigger, params, event.origin)];
      if reply.ok {
        RegisterAwait(ct.trigger, event, context, reply.now);
      }
      return reply.ok;
    }

    /** Parts a pool into what stays, the default events of what expired, and how each ended. */
    static method SplitPreflight(ps: seq<Preflight>, now: nat)
      returns (kept: seq<Preflight>, emit: seq<Emission>, slips: seq<Slip>)
      ensures kept == Filter(ps, PreflightLive(now))
      ensures emit == PreflightDefaults(Filter(ps, PreflightExpired(now)))
      ensures slips == PreflightSlips(Filter(ps, PreflightExpired(now)), false)
    {
      kept, emit, slips := [], [], [];
      var i := 0;
      while i < |ps|
        invariant 0 <= i <= |ps|
        invariant PreflightParted(ps[..i], now, kept, emit, slips)
      {
        var p := ps[i];
        if p.deadline > now {
          PreflightStays(ps, i, now, kept, emit, slips);
          kept := kept + [p];
        } else {
          PreflightGoes(ps, i, now, kept, emit, slips);
          emit := emit + if p.policy.FireWithDefault? then [NeverReady(p)] else [];
          slips := slips + [Slip(p.id, PolicyEnd(p.policy))];
        }
        i := i + 1;
      }
      assert ps[..i] == ps;
    }

    /** Parts a pool into what stays, the default events of what expired, and how each ended. */
    static method SplitPending(ps: seq<Pending>, now: nat)
      returns (kept: seq<Pending>, emit: seq<Emission>, slips: seq<Slip>)
      ensures kept == Filter(ps, PendingLive(now))
      ensures emit == PendingDefaults(Filter(ps, PendingExpired(now)))
      ensures slips == PendingSlips(Filter(ps, PendingExpired(now)), false)
    {
      kept, emit, slips := [], [], [];
      var i := 0;
      while i < |ps|
        invariant 0 <= i <= |ps|
        invariant PendingParted(ps[..i], now, kept, emit, slips)
      {
        var p := ps[i];
        if p.deadline > now {
          PendingStays(ps, i, now, kept, emit, slips);
          kept := kept + [p];
        } else {
          PendingGoes(ps, i, now, kept, emit, slips);
          emit := emit + if p.policy.FireWithDefault? then [TimedOut(p)] else [];
          slips := slips + [Slip(p.id, PolicyEnd(p.policy))];
        }
        i := i + 1;
      }
      assert ps[..i] == ps;
    }

    method SweepPreflight(now: nat) returns (emit: seq<Emission>)
      modifies this`preflight, this`ended
      ensures PoolsView(emit) == SweptPreflight(old(PoolsView([])), now)
    {
      var slips;
      preflight, emit, slips := SplitPreflight(preflight, now);
      ended := ended + slips;
      assert [] + emit == emit;
    }

    method SweepPending(now: nat, before: seq<Emission>) returns (emit: seq<Emission>)
      modifies this`pending, this`ended
      ensures PoolsView(emit) == SweptPending(old(PoolsView(before)), now)
    {
      var defaults, slips;
      pending, defaults, slips := SplitPending(pending, now);
      ended := ended + slips;
      emit := before + defaults;
    }

    method Sweep(now: nat)
      modifies this
      ensures View() == Swept(old(View()), now)
    {
      var emit := SweepPreflight(now);
      emit := SweepPending(now, emit);
      Publish(emit);
    }

    method DispatchCron(t: Trigger, context: Option<Context>) returns (refused: bool)
      modifies this`calls
      ensures View() == CronDispatched(old(View()), t, context, json)
      ensures refused <==> IsPrivileged(t.action) && !t.security.allowPrivileged
      ensures |calls| == |old(calls)| + if refused then 0 else 1
    {
      if IsPrivileged(t.action) && !t.security.allowPrivileged {
        return true;
      }
      var event := Event("cron." + t.name, COMPLETION_SOURCE, 0, Null, None, Internal);
      var params := Params(t, event, context, json);
      calls := calls + [Call(t, params, Internal)];
      return false;
    }
  }

  // ----- parting the preflight pool -----

  ghost predicate PreflightParted(
      ps: seq<Preflight>, now: nat, kept: seq<Preflight>, emit: seq<Emission>, slips: seq<Slip>)
  {
    && kept == Filter(ps, PreflightLive(now))
    && emit == PreflightDefaults(Filter(ps, PreflightExpired(now)))
    && slips == PreflightSlips(Filter(ps, PreflightExpired(now)), false)
  }

  lemma {:induction false} ExpiredSnoc(expired: seq<Preflight>, p: Preflight)
    ensures PreflightSlips(expired + [p], false) == PreflightSlips(expired, false) + [Slip(p.id, PolicyEnd(p.policy))]
    ensures PreflightDefaults(expired + [p])
            == PreflightDefaults(expired) + if p.policy.FireWithDefault? then [NeverReady(p)] else []
  {
    if expired == [] {
      assert [] + [p] == [p];
    } else {
      ConcatTail(expired, [p]);
      ExpiredSnoc(expired[1..], p);
      ConcatAssoc(PreflightDefaults([expired[0]]), PreflightDefaults(expired[1..]), PreflightDefaults([p]));
    }
  }

  lemma PreflightStays(
      ps: seq<Preflight>, i: nat, now: nat, kept: seq<Preflight>, emit: seq<Emission>, slips: seq<Slip>)
    requires i < |ps| && PreflightParted(ps[..i], now, kept, emit, slips) && ps[i].deadline > now
    ensures PreflightParted(ps[..i + 1], now, kept + [ps[i]], emit, slips)
  {
    FilterSnoc(ps, i, PreflightLive(now));
    FilterSnoc(ps, i, PreflightExpired(now));
    AppendNothing(Filter(ps[..i], PreflightExpired(now)));
  }

  lemma PreflightGoes(
      ps: seq<Preflight>, i: nat, now: nat, kept: seq<Preflight>, emit: seq<Emission>, slips: seq<Slip>)
    requires i < |ps| && PreflightParted(ps[..i], now, kept, emit, slips) && ps[i].deadline <= now
    ensures PreflightParted(ps[..i + 1], now, kept,
                     emit + if ps[i].policy.FireWithDefault? then [NeverReady(ps[i])] else [],
                     slips + [Slip(ps[i].id, PolicyEnd(ps[i].policy))])
  {
    FilterSnoc(ps, i, PreflightLive(now));
    FilterSnoc(ps, i, PreflightExpired(now));
    ExpiredSnoc(Filter(ps[..i], PreflightExpired(now)), ps[i]);
  }

  // ----- parting the pending pool -----

  ghost predicate PendingParted(
      ps: seq<Pending>, now: nat, kept: seq<Pending>, emit: seq<Emission>, slips: seq<Slip>)
  {
    && kept == Filter(ps, PendingLive(now))
    && emit == PendingDefaults(Filter(ps, PendingExpired(now)))
    && slips == PendingSlips(Filter(ps, PendingExpired(now)), false)
  }

  lemma {:induction false} PendingExpiredSnoc(expired: seq<Pending>, p: Pending)
    ensures PendingSlips(expired + [p], false) == PendingSlips(expired, false) + [Slip(p.id, PolicyEnd(p.policy))]
    ensures PendingDefaults(expired + [p])
            == PendingDefaults(expired) + if p.policy.FireWithDefault? then [TimedOut(p)] else []
  {
    if expired == [] {
      assert [] + [p] == [p];
    } else {
      ConcatTail(expired, [p]);
      PendingExpiredSnoc(expired[1..], p);
      ConcatAssoc(PendingDefaults([expired[0]]), PendingDefaults(expired[1..]), PendingDefaults([p]));
    }
  }

  lemma PendingStays(
      ps: seq<Pending>, i: nat, now: nat, kept: seq<Pending>, emit: seq<Emission>, slips: seq<Slip>)
    requires i < |ps| && PendingParted(ps[..i], now, kept, emit, slips) && ps[i].deadline > now
    ensures PendingParted(ps[..i + 1], now, kept + [ps[i]], emit, slips)
  {
    FilterSnoc(ps, i, PendingLive(now));
    FilterSnoc(ps, i, PendingExpired(now));
    AppendNothing(Filter(ps[..i], PendingExpired(now)));
  }

  lemma PendingGoes(
      ps: seq<Pending>, i: nat, now: nat, kept: seq<Pending>, emit: seq<Emission>, slips: seq<Slip>)
    requires i < |ps| && PendingParted(ps[..i], now, kept, emit, slips) && ps[i].deadline <= now
    ensures PendingParted(ps[..i + 1], now, kept,
                     emit + if ps[i].policy.FireWithDefault? then [TimedOut(ps[i])] else [],
                     slips + [Slip(ps[i].id, PolicyEnd(ps[i].policy))])
  {
    FilterSnoc(ps, i, PendingLive(now));
    FilterSnoc(ps, i, PendingExpired(now));
    PendingExpiredSnoc(Filter(ps[..i], PendingExpired(now)), ps[i]);
  }
}
