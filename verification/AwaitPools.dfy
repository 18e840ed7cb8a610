/**
 The two pools of the trigger engine's await machine. A registration waits in the preflight list
 until its action's completion is announced, then in the pending list until the awaited event
 arrives or its deadline passes. Each function here is one critical section of the engine.

 `id`, `due` and `ended` only record history: which registration an entry is, the deadline it was
 registered with, and how it left the pools.
 */
module AwaitPools {
  import opened Prelude
  import opened Values
  import Glob
  import Interpolation

  datatype TimeoutPolicy = Abort | FireWithDefault

  datatype AwaitClause = AwaitClause(
    kind: string, payloadMatch: map<string, Value>, timeout: nat, policy: TimeoutPolicy)

  datatype Preflight = Preflight(
    id: nat, name: string, action: string, awaitKind: string, template: map<string, Value>,
    event: Event, context: Option<Context>, deadline: nat, policy: TimeoutPolicy)

  datatype Pending = Pending(
    id: nat, name: string, awaitKind: string, payloadMatch: map<string, Value>,
    originalPayload: Value, actionResult: Value, deadline: nat, policy: TimeoutPolicy)

  /** An `<name>.awaited` event on its way to the bus. */
  datatype Emission = Emission(id: nat, kind: string, payload: Value)

  datatype End = Emitted | Failed | Aborted | Cleared

  /** How one registration left the pools. */
  datatype Slip = Slip(id: nat, end: End)

  datatype Pools = Pools(
    preflight: seq<Preflight>,
    pending: seq<Pending>,
    outbox: seq<Emission>,     // taken from a pool, not yet published
    published: seq<Emission>,
    nextId: nat,
    due: map<nat, nat>,
    ended: seq<Slip>)

  const EMPTY_POOLS := Pools([], [], [], [], 0, map[], [])

  const COMPLETION_SOURCE := "copad.action"

  // ----- small helpers -----

  predicate EndsWith(s: string, suffix: string) {
    |s| >= |suffix| && s[|s| - |suffix|..] == suffix
  }

  function StripSuffix(s: string, suffix: string): Option<string> {
    if EndsWith(s, suffix) then Some(s[..|s| - |suffix|]) else None
  }

  function AwaitedKind(name: string): string {
    name + ".awaited"
  }

  /** The original payload with the awaited one under `await` and the action's result under
      `action_result`; without a result, one inherited from an earlier chain is dropped. */
  function AwaitedPayload(original: Value, awaited: Value, actionResult: Option<Value>): Value {
    var fields := (if original.Obj? then original.fields else map[])["await" := awaited];
    Obj(if actionResult.Some? then fields["action_result" := actionResult.value] else fields - {"action_result"})
  }

  /** What a completion event announces: the action and whether it succeeded. Only events from the
      action registry count. */
  datatype Completion = Completion(action: string, success: bool)

  function Announces(event: Event): Option<Completion> {
    if event.source != COMPLETION_SOURCE then None
    else if StripSuffix(event.kind, ".completed").Some? then
      Some(Completion(StripSuffix(event.kind, ".completed").value, true))
    else if StripSuffix(event.kind, ".failed").Some? then
      Some(Completion(StripSuffix(event.kind, ".failed").value, false))
    else None
  }

  lemma StripsExactly(s: string, suffix: string, rest: string)
    ensures StripSuffix(s, suffix) == Some(rest) <==> s == rest + suffix
  {
    if EndsWith(s, suffix) {
      assert s == s[..|s| - |suffix|] + suffix;
    }
    if s == rest + suffix {
      assert s[|s| - |suffix|..] == suffix && s[..|s| - |suffix|] == rest;
    }
  }

  lemma EndsOneWay(kind: string)
    ensures !(EndsWith(kind, ".completed") && EndsWith(kind, ".failed"))
  {
    var cut := |kind| - 7;
    if EndsWith(kind, ".completed") {
      assert kind[|kind| - 10..][3] == kind[cut] == 'm';
    }
    if EndsWith(kind, ".failed") {
      assert kind[cut..][0] == kind[cut] == '.';
    }
  }

  /** Only the action registry announces; the rest of the kind is the action, its end the outcome. */
  lemma AnnouncesExactly(e: Event, a: string, ok: bool)
    ensures Announces(e) == Some(Completion(a, ok)) <==>
            e.source == "copad.action" && e.kind == a + (if ok then ".completed" else ".failed")
  {
    StripsExactly(e.kind, ".completed", a);
    StripsExactly(e.kind, ".failed", a);
    EndsOneWay(e.kind);
  }

  // ----- the critical sections -----

  function Registered(
      s: Pools, name: string, action: string, aw: AwaitClause, event: Event, context: Option<Context>, now: nat): Pools
  {
    var p := Preflight(s.nextId, name, action, aw.kind, aw.payloadMatch, event, context, now + aw.timeout, aw.policy);
    s.(preflight := s.preflight + [p], nextId := s.nextId + 1, due := s.due[s.nextId := now + aw.timeout])
  }

  /** The template's tokens are filled from the original event and the completion payload. */
  function Promoted(p: Preflight, result: Value, json: Value -> string): Pending {
    var env := Interpolation.Env(p.event, p.context, Some(result), json);
    Pending(p.id, p.name, p.awaitKind,
            map k | k in p.template :: Interpolation.TypedValue(p.template[k], env),
            p.event.payload, result, p.deadline, p.policy)
  }

  function RunsAction(action: string): Preflight -> bool {
    (p: Preflight) => p.action == action
  }

  function Advanced(s: Pools, event: Event, json: Value -> string): Pools {
    var c := Announces(event);
    if c.None? then s
    else
      var i := FirstIndex(s.preflight, RunsAction(c.value.action));
      if i == |s.preflight| then s
      else
        var p := s.preflight[i];
        var rest := RemoveAt(s.preflight, i);
        if c.value.success
        then s.(preflight := rest, pending := s.pending + [Promoted(p, event.payload, json)])
        else s.(preflight := rest, ended := s.ended + [Slip(p.id, Failed)])
  }

  predicate Awaits(p: Pending, event: Event) {
    Glob.PatternMatches(p.awaitKind, event.kind) && PayloadMatches(p.payloadMatch, event.payload)
  }

  function AwaitsEvent(event: Event): Pending -> bool {
    (p: Pending) => Awaits(p, event)
  }

  function Resolution(p: Pending, event: Event): Emission {
    Emission(p.id, AwaitedKind(p.name), AwaitedPayload(p.originalPayload, event.payload, Some(p.actionResult)))
  }

  function Matched(s: Pools, event: Event): Pools {
    var i := FirstIndex(s.pending, AwaitsEvent(event));
    if i == |s.pending| then s
    else
      var p := s.pending[i];
      s.(pending := RemoveAt(s.pending, i),
         outbox := s.outbox + [Resolution(p, event)],
         ended := s.ended + [Slip(p.id, Emitted)])
  }

  function PolicyEnd(policy: TimeoutPolicy): End {
    if policy.FireWithDefault? then Emitted else Aborted
  }

  /** The default events of expired entries, in list order: the awaited payload is null, and a
      preflight has no action result. */
  function NeverReady(p: Preflight): Emission {
    Emission(p.id, AwaitedKind(p.name), AwaitedPayload(p.event.payload, Null, None))
  }

  function PreflightDefaults(expired: seq<Preflight>): seq<Emission> {
    if expired == [] then []
    else
      var p := expired[0];
      (if p.policy.FireWithDefault? then [NeverReady(p)] else [])
      + PreflightDefaults(expired[1..])
  }

  function TimedOut(p: Pending): Emission {
    Emission(p.id, AwaitedKind(p.name), AwaitedPayload(p.originalPayload, Null, Some(p.actionResult)))
  }

  function PendingDefaults(expired: seq<Pending>): seq<Emission> {
    if expired == [] then []
    else
      var p := expired[0];
      (if p.policy.FireWithDefault? then [TimedOut(p)] else [])
      + PendingDefaults(expired[1..])
  }

  /** Slips of entries leaving the pools; `cleared` by a reload, otherwise as their policy says. */
  function PreflightSlips(ps: seq<Preflight>, cleared: bool): seq<Slip> {
    if ps == [] then []
    else [Slip(ps[0].id, if cleared then Cleared else PolicyEnd(ps[0].policy))] + PreflightSlips(ps[1..], cleared)
  }

  function PendingSlips(ps: seq<Pending>, cleared: bool): seq<Slip> {
    if ps == [] then []
    else [Slip(ps[0].id, if cleared then Cleared else PolicyEnd(ps[0].policy))] + PendingSlips(ps[1..], cleared)
  }

  function PreflightLive(now: nat): Preflight -> bool {
    (p: Preflight) => p.deadline > now
  }

  function PreflightExpired(now: nat): Preflight -> bool {
    (p: Preflight) => p.deadline <= now
  }

  function PendingLive(now: nat): Pending -> bool {
    (p: Pending) => p.deadline > now
  }

  function PendingExpired(now: nat): Pending -> bool {
    (p: Pending) => p.deadline <= now
  }

  function SweptPreflight(s: Pools, now: nat): Pools {
    var expired := Filter(s.preflight, PreflightExpired(now));
    s.(preflight := Filter(s.preflight, PreflightLive(now)),
       outbox := s.outbox + PreflightDefaults(expired),
       ended := s.ended + PreflightSlips(expired, false))
  }

  function SweptPending(s: Pools, now: nat): Pools {
    var expired := Filter(s.pending, PendingExpired(now));
    s.(pending := Filter(s.pending, PendingLive(now)),
       outbox := s.outbox + PendingDefaults(expired),
       ended := s.ended + PendingSlips(expired, false))
  }

  function Published(s: Pools, i: nat): Pools
    requires i < |s.outbox|
  {
    s.(outbox := RemoveAt(s.outbox, i), published := s.published + [s.outbox[i]])
  }

  function PreflightCleared(s: Pools): Pools {
    s.(preflight := [], ended := s.ended + PreflightSlips(s.preflight, true))
  }

  function PendingCleared(s: Pools): Pools {
    s.(pending := [], ended := s.ended + PendingSlips(s.pending, true))
  }
}
