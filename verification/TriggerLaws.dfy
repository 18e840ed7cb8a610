/**
 What the engine's operations come to, said of the triggers and events themselves: which triggers an
 event calls, with what, how many of the calls succeed, which awaits they register, and what
 configuration, cron dispatch, sweep and reload do.
 */
module TriggerLaws {
  import opened Prelude
  import opened Values
  import opened AwaitPools
  import opened AwaitLaws
  import opened TriggerEngine
  import Glob
  import Interpolation
  import ConditionText
  import ConditionEval

  // ----- which triggers an event calls -----

  /** The trigger's source names the event and its fields, the two opt-ins are given where they are
      needed, and the condition, if there is one, evaluates to true. */
  ghost predicate Fires(ct: Compiled, event: Event, context: Option<Context>) {
    var t := ct.trigger;
    && t.source.Some? && Glob.StandsFor(t.source.value.kind, event.kind)
    && HasFields(t.source.value.payloadMatch, event.payload)
    && (event.origin == External ==> t.security.acceptExternal)
    && (t.action == "system.spawn" ==> t.security.allowPrivileged)
    && (ct.condition.Some? ==> ConditionEval.Eval(ct.condition.value, event, context) == Ok(true))
  }

  lemma PassesExactly(ct: Compiled, event: Event, context: Option<Context>)
    ensures Passes(ct, event, context) <==> Fires(ct, event, context)
  {
    if ct.trigger.source.Some? {
      Glob.MatchesExactly(ct.trigger.source.value.kind, event.kind);
      PayloadExactly(ct.trigger.source.value.payloadMatch, event.payload);
    }
  }

  function Indices(n: nat): seq<nat> {
    seq(n, i requires 0 <= i < n => i)
  }

  ghost function Calling(cts: seq<Compiled>, event: Event, context: Option<Context>): nat -> bool {
    (i: nat) => i < |cts| && Fires(cts[i], event, context)
  }

  ghost function Succeeding(
      cts: seq<Compiled>, event: Event, context: Option<Context>, replies: nat -> Reply): nat -> bool
  {
    (i: nat) => i < |cts| && Fires(cts[i], event, context) && replies(i).ok
  }

  ghost function Registering(
      cts: seq<Compiled>, event: Event, context: Option<Context>, replies: nat -> Reply): nat -> bool
  {
    (i: nat) => i < |cts| && Fires(cts[i], event, context) && replies(i).ok && cts[i].trigger.awaits.Some?
  }

  /** The call a trigger makes: its own parameters, with the tokens filled in. */
  function CallOf(t: Trigger, event: Event, context: Option<Context>, json: Json): Call {
    Call(t, Interpolation.InterpolatedValue(t.params, Interpolation.Env(event, context, None, json)), event.origin)
  }

  function CallsOf(
      cts: seq<Compiled>, which: seq<nat>, event: Event, context: Option<Context>, json: Json): seq<Call>
    requires forall i :: i in which ==> i < |cts|
  {
    seq(|which|, j requires 0 <= j < |which| =>
      assert which[j] in which;
      CallOf(cts[which[j]].trigger, event, context, json))
  }

  /** The await that trigger registers, under the number `id`. */
  function AwaitOf(t: Trigger, id: nat, event: Event, context: Option<Context>, reply: Reply): Preflight
    requires t.awaits.Some?
  {
    var aw := t.awaits.value;
    Preflight(id, t.name, t.action, aw.kind, aw.payloadMatch, event, context, reply.now + aw.timeout, aw.policy)
  }

  function AwaitsOf(
      cts: seq<Compiled>, which: seq<nat>, first: nat, event: Event, context: Option<Context>,
      replies: nat -> Reply): seq<Preflight>
    requires forall i :: i in which ==> i < |cts| && cts[i].trigger.awaits.Some?
  {
    seq(|which|, j requires 0 <= j < |which| =>
      assert which[j] in which;
      AwaitOf(cts[which[j]].trigger, first + j, event, context, replies(which[j])))
  }

  lemma IndicesSnoc(n: nat, keep: nat -> bool)
    ensures Filter(Indices(n + 1), keep) == Filter(Indices(n), keep) + if keep(n) then [n] else []
  {
    assert Indices(n + 1) == Indices(n) + [n];
    FilterConcat(Indices(n), [n], keep);
    FilterHead([n], keep);
  }

  lemma CallsSnoc(cts: seq<Compiled>, which: seq<nat>, i: nat, event: Event, context: Option<Context>, json: Json)
    requires forall k :: k in which ==> k < |cts|
    requires i < |cts|
    ensures CallsOf(cts, which + [i], event, context, json)
            == CallsOf(cts, which, event, context, json) + [CallOf(cts[i].trigger, event, context, json)]
  {
  }

  lemma AwaitsSnoc(
      cts: seq<Compiled>, which: seq<nat>, i: nat, first: nat, event: Event, context: Option<Context>,
      replies: nat -> Reply)
    requires forall k :: k in which ==> k < |cts| && cts[k].trigger.awaits.Some?
    requires i < |cts| && cts[i].trigger.awaits.Some?
    ensures AwaitsOf(cts, which + [i], first, event, context, replies)
            == AwaitsOf(cts, which, first, event, context, replies)
               + [AwaitOf(cts[i].trigger, first + |which|, event, context, replies(i))]
  {
  }

  /** The numbers, below `n`, of the triggers that call. */
  ghost function Callers(cts: seq<Compiled>, n: nat, event: Event, context: Option<Context>): (r: seq<nat>)
    ensures forall i :: i in r ==> i < |cts|
  {
    FilterMembers(Indices(n), Calling(cts, event, context));
    Filter(Indices(n), Calling(cts, event, context))
  }

  ghost function Registrars(
      cts: seq<Compiled>, n: nat, event: Event, context: Option<Context>, replies: nat -> Reply): (r: seq<nat>)
    ensures forall i :: i in r ==> i < |cts| && cts[i].trigger.awaits.Some?
  {
    FilterMembers(Indices(n), Registering(cts, event, context, replies));
    Filter(Indices(n), Registering(cts, event, context, replies))
  }

  lemma OneCalls(s: EngineState, ct: Compiled, event: Event, context: Option<Context>, reply: Reply, json: Json)
    ensures FiredOne(s, ct, event, context, reply, json).calls
            == s.calls + if Fires(ct, event, context) then [CallOf(ct.trigger, event, context, json)] else []
  {
    PassesExactly(ct, event, context);
    AppendNothing(s.calls);
  }

  lemma OneRegisters(s: EngineState, ct: Compiled, event: Event, context: Option<Context>, reply: Reply, json: Json)
    ensures var after := FiredOne(s, ct, event, context, reply, json).pools;
            if Fires(ct, event, context) && reply.ok && ct.trigger.awaits.Some? then
              after.preflight == s.pools.preflight + [AwaitOf(ct.trigger, s.pools.nextId, event, context, reply)]
              && after.nextId == s.pools.nextId + 1
            else after.preflight == s.pools.preflight && after.nextId == s.pools.nextId
  {
    PassesExactly(ct, event, context);
  }

  lemma CallersSnoc(cts: seq<Compiled>, n: nat, event: Event, context: Option<Context>)
    requires n < |cts|
    ensures Callers(cts, n + 1, event, context)
            == Callers(cts, n, event, context) + if Fires(cts[n], event, context) then [n] else []
  {
    IndicesSnoc(n, Calling(cts, event, context));
  }

  /** The calls of one trigger more. */
  lemma OneMoreCall(
      cts: seq<Compiled>, which: seq<nat>, i: nat, fires: bool, event: Event, context: Option<Context>,
      json: Json, start: seq<Call>)
    requires (forall k :: k in which ==> k < |cts|) && i < |cts|
    ensures var more := if fires then [i] else [];
            var next := if fires then [CallOf(cts[i].trigger, event, context, json)] else [];
            && (forall k :: k in which + more ==> k < |cts|)
            && start + CallsOf(cts, which, event, context, json) + next
               == start + CallsOf(cts, which + more, event, context, json)
  {
    var calls := CallsOf(cts, which, event, context, json);
    if fires {
      CallsSnoc(cts, which, i, event, context, json);
      ConcatAssoc(start, calls, [CallOf(cts[i].trigger, event, context, json)]);
    } else {
      AppendNothing(which);
      AppendNothing(start + calls);
    }
  }

  lemma {:induction false} FiredCalls(
      s: EngineState, cts: seq<Compiled>, n: nat, event: Event, context: Option<Context>,
      replies: nat -> Reply, json: Json)
    requires n <= |cts|
    ensures Fired(s, cts, n, event, context, replies, json).calls
            == s.calls + CallsOf(cts, Callers(cts, n, event, context), event, context, json)
  {
    if n == 0 {
      assert CallsOf(cts, [], event, context, json) == [];
      AppendNothing(s.calls);
    } else {
      FiredCalls(s, cts, n - 1, event, context, replies, json);
      OneCalls(Fired(s, cts, n - 1, event, context, replies, json), cts[n - 1], event, context, replies(n - 1), json);
      CallersSnoc(cts, n - 1, event, context);
      OneMoreCall(cts, Callers(cts, n - 1, event, context), n - 1, Fires(cts[n - 1], event, context), event, context,
                  json, s.calls);
    }
  }

  lemma {:induction false} SuccessesCount(
      cts: seq<Compiled>, n: nat, event: Event, context: Option<Context>, replies: nat -> Reply)
    requires n <= |cts|
    ensures Successes(cts, n, event, context, replies)
            == |Filter(Indices(n), Succeeding(cts, event, context, replies))|
  {
    if n == 0 {
    } else {
      SuccessesCount(cts, n - 1, event, context, replies);
      PassesExactly(cts[n - 1], event, context);
      IndicesSnoc(n - 1, Succeeding(cts, event, context, replies));
    }
  }

  /** The awaits of one trigger more. */
  lemma OneMoreAwait(
      cts: seq<Compiled>, which: seq<nat>, i: nat, registers: bool, first: nat, event: Event,
      context: Option<Context>, replies: nat -> Reply, start: seq<Preflight>)
    requires forall k :: k in which ==> k < |cts| && cts[k].trigger.awaits.Some?
    requires i < |cts| && (registers ==> cts[i].trigger.awaits.Some?)
    ensures var more := if registers then [i] else [];
            var next :=
              if registers then [AwaitOf(cts[i].trigger, first + |which|, event, context, replies(i))] else [];
            && (forall k :: k in which + more ==> k < |cts| && cts[k].trigger.awaits.Some?)
            && start + AwaitsOf(cts, which, first, event, context, replies) + next
               == start + AwaitsOf(cts, which + more, first, event, context, replies)
  {
    var awaits := AwaitsOf(cts, which, first, event, context, replies);
    if registers {
      AwaitsSnoc(cts, which, i, first, event, context, replies);
      ConcatAssoc(start, awaits, [AwaitOf(cts[i].trigger, first + |which|, event, context, replies(i))]);
    } else {
      AppendNothing(which);
      AppendNothing(start + awaits);
    }
  }

  lemma RegistrarsSnoc(
      cts: seq<Compiled>, n: nat, event: Event, context: Option<Context>, replies: nat -> Reply)
    requires n < |cts|
    ensures Registrars(cts, n + 1, event, context, replies)
            == Registrars(cts, n, event, context, replies)
               + if Registering(cts, event, context, replies)(n) then [n] else []
  {
    IndicesSnoc(n, Registering(cts, event, context, replies));
  }

  lemma NextAwaits(
      r: EngineState, cts: seq<Compiled>, n: nat, first: nat, start: seq<Preflight>, event: Event,
      context: Option<Context>, replies: nat -> Reply, json: Json)
    requires n < |cts|
    requires var which := Registrars(cts, n, event, context, replies);
             r.pools.preflight == start + AwaitsOf(cts, which, first, event, context, replies)
             && r.pools.nextId == first + |which|
    ensures var after := FiredOne(r, cts[n], event, context, replies(n), json);
            var which := Registrars(cts, n + 1, event, context, replies);
            && after.pools.preflight == start + AwaitsOf(cts, which, first, event, context, replies)
            && after.pools.nextId == first + |which|
  {
    var registers := Registering(cts, event, context, replies)(n);
    RegistrarsSnoc(cts, n, event, context, replies);
    OneRegisters(r, cts[n], event, context, replies(n), json);
    OneMoreAwait(cts, Registrars(cts, n, event, context, replies), n, registers, first, event, context, replies, start);
    AppendNothing(r.pools.preflight);
  }

  lemma {:induction false} FiredAwaits(
      s: EngineState, cts: seq<Compiled>, n: nat, event: Event, context: Option<Context>,
      replies: nat -> Reply, json: Json)
    requires n <= |cts|
    ensures var after := Fired(s, cts, n, event, context, replies, json);
            var which := Registrars(cts, n, event, context, replies);
            && after.pools.preflight
               == s.pools.preflight + AwaitsOf(cts, which, s.pools.nextId, event, context, replies)
            && after.pools.nextId == s.pools.nextId + |which|
  {
    if n == 0 {
      AppendNothing(s.pools.preflight);
      assert AwaitsOf(cts, [], s.pools.nextId, event, context, replies) == [];
    } else {
      FiredAwaits(s, cts, n - 1, event, context, replies, json);
      NextAwaits(Fired(s, cts, n - 1, event, context, replies, json), cts, n - 1, s.pools.nextId, s.pools.preflight,
                 event, context, replies, json);
    }
  }

  /** One dispatched event makes exactly one call for each trigger it fires, in configuration order;
      the count returned is that of the good replies; and each trigger with a good reply and an await
      registers it, behind what the await passes left in preflight, with the deadline counted from the
      reply. */
  lemma DispatchExactly(s: EngineState, event: Event, context: Option<Context>, replies: nat -> Reply, json: Json)
    ensures var after, cts := Dispatched(s, event, context, replies, json), s.triggers;
            && after.triggers == cts
            && after.calls == s.calls + CallsOf(cts, Callers(cts, |cts|, event, context), event, context, json)
            && Successes(cts, |cts|, event, context, replies)
               == |Filter(Indices(|cts|), Succeeding(cts, event, context, replies))|
            && var passed := AwaitPasses(s.pools, event, json);
               var which := Registrars(cts, |cts|, event, context, replies);
               after.pools.preflight
               == passed.preflight + AwaitsOf(cts, which, passed.nextId, event, context, replies)
  {
    var start := s.(pools := AwaitPasses(s.pools, event, json));
    FiredCalls(start, s.triggers, |s.triggers|, event, context, replies, json);
    SuccessesCount(s.triggers, |s.triggers|, event, context, replies);
    FiredAwaits(start, s.triggers, |s.triggers|, event, context, replies, json);
    FiredKeepsTriggers(start, s.triggers, |s.triggers|, event, context, replies, json);
  }

  lemma {:induction false} FiredKeepsTriggers(
      s: EngineState, cts: seq<Compiled>, n: nat, event: Event, context: Option<Context>,
      replies: nat -> Reply, json: Json)
    requires n <= |cts|
    ensures Fired(s, cts, n, event, context, replies, json).triggers == s.triggers
  {
    if n == 0 {
    } else {
      FiredKeepsTriggers(s, cts, n - 1, event, context, replies, json);
    }
  }

  // ----- the await passes -----

  lemma AdvanceKeepsPending(s: Pools, event: Event, json: Json)
    ensures s.pending <= Advanced(s, event, json).pending
    ensures Advanced(s, event, json).outbox == s.outbox && Advanced(s, event, json).published == s.published
  {
  }

  lemma FlushesOne(s: Pools, matched: Pools, e: Emission)
    requires s.outbox == [] && matched.outbox == s.outbox + [e] && matched.published == s.published
    ensures Flushed(matched) == matched.(published := s.published + [e], outbox := [])
  {
  }

  lemma RemovedFromBeginning<T>(a: seq<T>, b: seq<T>, i: nat)
    requires a <= b && i < |a|
    ensures a[i] == b[i] && a[..i] + a[i + 1..] <= b[..i] + b[i + 1..]
  {
  }

  /** The first pending entry that expects an internal event is resolved by it and announced at once. */
  lemma AwaitedIsAnnounced(s: Pools, event: Event, json: Json, i: nat)
    requires event.origin == Internal && s.outbox == []
    requires i < |s.pending| && Expects(s.pending[i], event)
    requires forall k :: 0 <= k < i ==> !Expects(s.pending[k], event)
    ensures var after, p := AwaitPasses(s, event, json), s.pending[i];
            var said := AwaitedPayload(p.originalPayload, event.payload, Some(p.actionResult));
            && after.published == s.published + [Emission(p.id, p.name + ".awaited", said)] && after.outbox == []
            && s.pending[..i] + s.pending[i + 1..] <= after.pending
  {
    var mid, p := Advanced(s, event, json), s.pending[i];
    var said := AwaitedPayload(p.originalPayload, event.payload, Some(p.actionResult));
    AdvanceKeepsPending(s, event, json);
    assert forall k :: 0 <= k <= i ==> mid.pending[k] == s.pending[k];
    EventResolves(mid, event, i);
    RemovedFromBeginning(s.pending, mid.pending, i);
    FlushesOne(mid, Matched(mid, event), Emission(p.id, p.name + ".awaited", said));
  }

  /** An internal completion counts before anyone is resolved: what it promotes may be resolved by the
      same event, if nobody pending expects it. */
  lemma PromotedIsHeard(s: Pools, event: Event, json: Json, action: string, i: nat)
    requires event.origin == Internal && s.outbox == []
    requires event.source == "copad.action" && event.kind == action + ".completed" && FirstOf(s.preflight, action, i)
    requires forall k :: 0 <= k < |s.pending| ==> !Expects(s.pending[k], event)
    ensures var after, q := AwaitPasses(s, event, json), Advanced(s, event, json).pending[|s.pending|];
            && after.preflight == s.preflight[..i] + s.preflight[i + 1..]
            && q.id == s.preflight[i].id
            && after.pending == s.pending + (if Expects(q, event) then [] else [q])
            && |after.published| == |s.published| + if Expects(q, event) then 1 else 0
  {
    CompletedPromotes(s, event, json, action, i);
    var mid, n := Advanced(s, event, json), |s.pending|;
    AdvanceKeepsPending(s, event, json);
    assert forall k :: 0 <= k < n ==> mid.pending[k] == s.pending[k];
    assert mid.pending == s.pending + [mid.pending[n]];
    AppendNothing(s.pending);
    AppendNothing(s.published);
    if Expects(mid.pending[n], event) {
      EventResolves(mid, event, n);
    } else {
      NobodyExpects(mid, event);
    }
  }

  // ----- configuration -----

  ghost predicate Mentions(s: string, part: string) {
    exists a, b :: s == a + part + b
  }

  lemma {:induction false} ContainsExactly(s: string, part: string)
    ensures Contains(s, part) <==> Mentions(s, part)
  {
    if part <= s {
      assert s == [] + part + s[|part|..];
    } else if s == "" {
      assert forall a, b :: s == a + part + b ==> part == "";
    } else {
      ContainsExactly(s[1..], part);
      MentionsLater(s, part);
    }
  }

  lemma MentionsLater(s: string, part: string)
    requires s != "" && !(part <= s)
    ensures Mentions(s[1..], part) <==> Mentions(s, part)
  {
    forall a, b | s[1..] == a + part + b
      ensures Mentions(s, part)
    {
      assert s == ([s[0]] + a) + part + b;
    }
    forall a, b | s == a + part + b
      ensures Mentions(s[1..], part)
    {
      assert a == [] ==> s == part + b;
      assert s[1..] == a[1..] + part + b;
    }
  }

  /** A trigger is accepted with either an event source or a cron schedule, in the second case without
      anything that needs an event; and its condition, if it has one, must parse. */
  ghost predicate Accepted(t: Trigger, json: Json) {
    && (t.source.Some? <==> t.cron.None?)
    && (t.cron.Some? ==>
          t.condition.None? && t.awaits.None?
          && !Mentions(json(t.params), "{event.") && !Mentions(json(t.params), "{action_result."))
    && (t.condition.Some? ==> ConditionText.ParseText(t.condition.value).Ok?)
  }

  lemma CompileOneExactly(t: Trigger, json: Json)
    ensures var c := CompileOne(t, json);
            && (c.Some? <==> Accepted(t, json))
            && (c.Some? ==> c.value.trigger == t
                            && c.value.condition
                               == (if t.condition.None? then None
                                   else Some(ConditionText.ParseText(t.condition.value).value)))
  {
    ContainsExactly(json(t.params), "{event.");
    ContainsExactly(json(t.params), "{action_result.");
  }

  ghost function IsAccepted(json: Json): Trigger -> bool {
    (t: Trigger) => Accepted(t, json)
  }

  /** The compiled list is the configured one without the triggers that are not accepted. */
  lemma {:induction false} CompileKeepsAccepted(ts: seq<Trigger>, json: Json)
    ensures var cts, kept := Compile(ts, json), Filter(ts, IsAccepted(json));
            |cts| == |kept| && forall i :: 0 <= i < |cts| ==>
              cts[i].trigger == kept[i] && Some(cts[i]) == CompileOne(kept[i], json)
  {
    if ts == [] {
    } else {
      var n := |ts| - 1;
      CompileKeepsAccepted(ts[..n], json);
      CompileOneExactly(ts[n], json);
      FilterSnoc(ts, n, IsAccepted(json));
      assert ts[..n + 1] == ts;
    }
  }

  // ----- cron, sweep, reload -----

  /** A cron trigger calls its action once, unless it starts a program without being allowed to, with an
      empty event that names it; it touches no pool. */
  lemma CronExactly(s: EngineState, t: Trigger, context: Option<Context>, json: Json)
    ensures var after := CronDispatched(s, t, context, json);
            var event := Event("cron." + t.name, "copad.action", 0, Null, None, Internal);
            && after.pools == s.pools && after.triggers == s.triggers
            && after.calls == s.calls + if t.action == "system.spawn" && !t.security.allowPrivileged then []
                                        else [CallOf(t, event, context, json)]
  {
    AppendNothing(s.calls);
  }

  /** A sweep leaves both pools with what is due later and publishes what it says. */
  lemma SweepExactly(s: EngineState, now: nat, p: Preflight, q: Pending)
    requires s.pools.outbox == []
    ensures var after := Swept(s, now);
            && (p in after.pools.preflight <==> p in s.pools.preflight && now < p.deadline)
            && (q in after.pools.pending <==> q in s.pools.pending && now < q.deadline)
            && after.pools.outbox == []
            && after.pools.published
               == s.pools.published + SweptPending(SweptPreflight(s.pools, now), now).outbox
            && after.triggers == s.triggers && after.calls == s.calls
  {
    var first := SweptPreflight(s.pools, now);
    var e := Emission(0, "", Null);
    PreflightSweptExactly(s.pools, now, p, e);
    PendingSweptExactly(first, now, q, e);
  }

  /** A reload leaves nobody waiting; every await there was has ended as cleared. */
  lemma ReloadClears(s: EngineState, ts: seq<Trigger>, json: Json)
    ensures var after := Reloaded(s, ts, json);
            && after.pools.preflight == [] && after.pools.pending == [] && after.calls == s.calls
            && after.pools.published == s.pools.published && after.pools.outbox == s.pools.outbox
            && s.pools.ended <= after.pools.ended
            && (forall p :: p in s.pools.preflight ==> Slip(p.id, Cleared) in after.pools.ended)
            && (forall p :: p in s.pools.pending ==> Slip(p.id, Cleared) in after.pools.ended)
  {
    forall p | p in s.pools.preflight
      ensures Slip(p.id, Cleared) in PreflightSlips(s.pools.preflight, true)
    {
      PreflightEnds(s.pools.preflight, Slip(p.id, Cleared));
    }
    forall p | p in s.pools.pending
      ensures Slip(p.id, Cleared) in PendingSlips(s.pools.pending, true)
    {
      PendingEnds(s.pools.pending, Slip(p.id, Cleared));
    }
  }
}
