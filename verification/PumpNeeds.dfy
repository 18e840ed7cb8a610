/**
 The receivers of the pump and the needs of the engine: whatever event can still change the engine
 after a reload reaches a receiver that the reload left, and no receiver is kept for anything else.
 */
module PumpNeeds {
  import opened Prelude
  import opened Values
  import opened AwaitPools
  import opened AwaitLaws
  import opened TriggerEngine
  import opened TriggerLaws
  import opened TriggerRuns
  import opened TriggerPump
  import Glob
  import Covering

  // ----- what the triggers ask for -----

  /** The trigger listens for `q`: its source, the event it awaits, or its action's two outcomes. */
  predicate Asks(t: Trigger, q: string) {
    t.source.Some?
    && (q == t.source.value.kind
        || (t.awaits.Some?
            && (q == t.awaits.value.kind || q == t.action + ".completed" || q == t.action + ".failed")))
  }

  lemma OnePattern(t: Trigger, q: string)
    ensures q in PatternsOf(t) <==> Asks(t, q)
  {
  }

  predicate AskedBy(ts: seq<Trigger>, q: string) {
    exists t :: t in ts && Asks(t, q)
  }

  lemma AskedBySnoc(ts: seq<Trigger>, t: Trigger, q: string)
    ensures AskedBy(ts + [t], q) <==> AskedBy(ts, q) || Asks(t, q)
  {
    assert forall x :: x in ts + [t] <==> x in ts || x == t;
  }

  lemma {:induction false} PatternsExactly(ts: seq<Trigger>, q: string)
    ensures q in RawPatterns(ts) <==> AskedBy(ts, q)
  {
    if ts == [] {
    } else {
      var before, last := ts[..|ts| - 1], ts[|ts| - 1];
      PatternsExactly(before, q);
      OnePattern(last, q);
      assert ts == before + [last];
      AskedBySnoc(before, last, q);
    }
  }

  /** What a reload leaves: the receivers still needed, as they are, and an empty one for each other
      pattern needed. */
  lemma ReceiversExactly(rs: seq<Receiver>, needed: seq<string>, r: Receiver)
    ensures r in Reconciled(rs, needed) <==>
            r.pattern in needed && (r in rs || (r.queue == [] && forall x :: x in rs ==> x.pattern != r.pattern))
  {
    var missing := Filter(needed, Missing(Patterns(rs)));
    FilterMembers(rs, Needed(needed));
    FilterMembers(needed, Missing(Patterns(rs)));
    HasPattern(rs, r.pattern);
    if r in Opened(missing) {
      var k :| 0 <= k < |missing| && Opened(missing)[k] == r;
      assert missing[k] in missing;
    }
    if r.pattern in missing && r.queue == [] {
      var k :| 0 <= k < |missing| && missing[k] == r.pattern;
      assert Opened(missing)[k] == r;
    }
    assert r in Filter(rs, Needed(needed)) <==> r in rs && Needed(needed)(r);
    assert r.pattern in missing <==> r.pattern in needed && Missing(Patterns(rs))(r.pattern);
  }

  lemma HasPattern(rs: seq<Receiver>, p: string)
    ensures p in Patterns(rs) <==> exists x :: x in rs && x.pattern == p
  {
    if p in Patterns(rs) {
      var k :| 0 <= k < |rs| && Patterns(rs)[k] == p;
      assert rs[k] in rs;
    }
    forall x | x in rs && x.pattern == p
      ensures p in Patterns(rs)
    {
      var k :| 0 <= k < |rs| && rs[k] == x;
      assert Patterns(rs)[k] == p;
    }
  }

  /** Some receiver takes events of this kind. */
  ghost predicate Reached(rs: seq<Receiver>, kind: string) {
    exists r :: r in rs && Glob.StandsFor(r.pattern, kind)
  }

  /** A kind that some trigger asks for is reached after the reload. */
  lemma AskedIsReached(rs: seq<Receiver>, ts: seq<Trigger>, t: Trigger, q: string, kind: string)
    requires t in ts && Asks(t, q) && Glob.StandsFor(q, kind)
    ensures Reached(Reconciled(rs, Covering.Reduced(RawPatterns(ts))), kind)
  {
    var raw := RawPatterns(ts);
    PatternsExactly(ts, q);
    Glob.MatchesExactly(q, kind);
    Covering.SameKinds(raw, kind);
    var p :| p in Covering.Reduced(raw) && Glob.PatternMatches(p, kind);
    Glob.MatchesExactly(p, kind);
    var r := if exists x :: x in rs && x.pattern == p then (var x :| x in rs && x.pattern == p; x) else Receiver(p, []);
    ReceiversExactly(rs, Covering.Reduced(raw), r);
    assert r in Reconciled(rs, Covering.Reduced(raw));
  }

  // ----- what the engine holds since the reload -----

  /** The entry was registered by one of the triggers. */
  predicate FromTrigger(ts: seq<Trigger>, action: string, kind: string) {
    exists t :: t in ts && t.source.Some? && t.awaits.Some? && t.action == action && t.awaits.value.kind == kind
  }

  predicate AwaitedBy(ts: seq<Trigger>, kind: string) {
    exists t :: t in ts && t.source.Some? && t.awaits.Some? && t.awaits.value.kind == kind
  }

  predicate Held(s: Pools, ts: seq<Trigger>) {
    && s.outbox == []
    && (forall p :: p in s.preflight ==> FromTrigger(ts, p.action, p.awaitKind))
    && (forall p :: p in s.pending ==> AwaitedBy(ts, p.awaitKind))
  }

  predicate Serves(s: EngineState, ts: seq<Trigger>, json: Json) {
    s.triggers == Compile(ts, json) && Held(s.pools, ts)
  }

  lemma {:induction false} CompiledIsConfigured(ts: seq<Trigger>, json: Json, i: nat)
    requires i < |Compile(ts, json)|
    ensures Compile(ts, json)[i].trigger in ts
  {
    var before := ts[..|ts| - 1];
    if i < |Compile(before, json)| {
      CompiledIsConfigured(before, json, i);
    }
  }

  lemma AdvanceHolds(s: Pools, ts: seq<Trigger>, event: Event, json: Json)
    requires Held(s, ts)
    ensures Held(Advanced(s, event, json), ts)
  {
    if Announces(event).Some? {
      var i := FirstIndex(s.preflight, RunsAction(Announces(event).value.action));
      if i < |s.preflight| {
        assert s.preflight[i] in s.preflight;
        forall p | p in RemoveAt(s.preflight, i)
          ensures p in s.preflight
        {
        }
      }
    }
  }

  lemma MatchHolds(s: Pools, ts: seq<Trigger>, event: Event)
    requires Held(s, ts)
    ensures Held(Flushed(Matched(s, event)), ts)
  {
  }

  lemma OneHolds(
      s: EngineState, ts: seq<Trigger>, ct: Compiled, event: Event, context: Option<Context>, reply: Reply, json: Json)
    requires Held(s.pools, ts) && ct.trigger in ts
    ensures Held(FiredOne(s, ct, event, context, reply, json).pools, ts)
    ensures !Fires(ct, event, context) ==> FiredOne(s, ct, event, context, reply, json) == s
  {
    PassesExactly(ct, event, context);
    var t := ct.trigger;
    if Fires(ct, event, context) && reply.ok && t.awaits.Some? {
      assert FromTrigger(ts, t.action, t.awaits.value.kind);
    }
  }

  lemma {:induction false} FiredHolds(
      s: EngineState, ts: seq<Trigger>, n: nat, event: Event, context: Option<Context>,
      replies: nat -> Reply, json: Json)
    requires Serves(s, ts, json) && n <= |s.triggers|
    ensures Serves(Fired(s, s.triggers, n, event, context, replies, json), ts, json)
    ensures (forall i: nat :: i < n ==> !Fires(s.triggers[i], event, context)) ==>
              Fired(s, s.triggers, n, event, context, replies, json) == s
  {
    if n == 0 {
    } else {
      FiredHolds(s, ts, n - 1, event, context, replies, json);
      CompiledIsConfigured(ts, json, n - 1);
      OneHolds(Fired(s, s.triggers, n - 1, event, context, replies, json), ts, s.triggers[n - 1], event, context,
               replies(n - 1), json);
    }
  }

  lemma PassesHold(s: Pools, ts: seq<Trigger>, event: Event, json: Json)
    requires Held(s, ts)
    ensures Held(AwaitPasses(s, event, json), ts)
  {
    AdvanceHolds(s, ts, event, json);
    MatchHolds(Advanced(s, event, json), ts, event);
  }

  lemma SweepHolds(s: EngineState, ts: seq<Trigger>, now: nat)
    requires Held(s.pools, ts)
    ensures Held(Swept(s, now).pools, ts)
  {
    FilterMembers(s.pools.preflight, PreflightLive(now));
    FilterMembers(s.pools.pending, PendingLive(now));
  }

  lemma {:induction false} ServesOn(s: EngineState, ts: seq<Trigger>, inputs: seq<Input>, json: Json)
    requires Serves(s, ts, json) && forall i :: i in inputs ==> !i.Reload?
    ensures Serves(EngineRun(s, inputs, json), ts, json)
  {
    if inputs == [] {
    } else {
      var r, last := EngineRun(s, inputs[..|inputs| - 1], json), inputs[|inputs| - 1];
      assert last in inputs;
      ServesOn(s, ts, inputs[..|inputs| - 1], json);
      match last
      case Dispatch(event, context, replies) =>
        PassesHold(r.pools, ts, event, json);
        var passed := r.(pools := AwaitPasses(r.pools, event, json));
        FiredHolds(passed, ts, |r.triggers|, event, context, replies, json);
      case Cron(_, _) =>
      case Sweep(now) => SweepHolds(r, ts, now);
    }
  }

  // ----- the result -----

  /** An event that moves an entry of the pools is one that a trigger asks for. */
  lemma MoverIsReached(s: Pools, ts: seq<Trigger>, rs: seq<Receiver>, event: Event, json: Json)
    requires Held(s, ts)
    requires Advanced(s, event, json) != s || Matched(s, event) != s
    ensures Reached(Reconciled(rs, Covering.Reduced(RawPatterns(ts))), event.kind)
  {
    if Advanced(s, event, json) != s {
      var c := Announces(event).value;
      AnnouncesExactly(event, c.action, c.success);
      var i := FirstIndex(s.preflight, RunsAction(c.action));
      assert RunsAction(c.action)(s.preflight[i]) && s.preflight[i] in s.preflight;
      var t :| t in ts && t.source.Some? && t.awaits.Some? && t.action == c.action
               && t.awaits.value.kind == s.preflight[i].awaitKind;
      AskedIsReached(rs, ts, t, event.kind, event.kind);
    } else {
      var i := FirstIndex(s.pending, AwaitsEvent(event));
      var p := s.pending[i];
      assert AwaitsEvent(event)(p) && p in s.pending;
      AwaitsExactly(p, event);
      var t :| t in ts && t.source.Some? && t.awaits.Some? && t.awaits.value.kind == p.awaitKind;
      AskedIsReached(rs, ts, t, p.awaitKind, event.kind);
    }
  }

  lemma ChangerIsReached(
      s: EngineState, ts: seq<Trigger>, rs: seq<Receiver>, event: Event, context: Option<Context>,
      replies: nat -> Reply, json: Json)
    requires Serves(s, ts, json) && Dispatched(s, event, context, replies, json) != s
    ensures Reached(Reconciled(rs, Covering.Reduced(RawPatterns(ts))), event.kind)
  {
    if Advanced(s.pools, event, json) != s.pools || Matched(s.pools, event) != s.pools {
      MoverIsReached(s.pools, ts, rs, event, json);
    } else {
      assert Flushed(s.pools) == s.pools by {
        AppendNothing(s.pools.published);
      }
      assert s.(pools := AwaitPasses(s.pools, event, json)) == s;
      FiredHolds(s, ts, |s.triggers|, event, context, replies, json);
      var i: nat :| i < |s.triggers| && Fires(s.triggers[i], event, context);
      CompiledIsConfigured(ts, json, i);
      var t := s.triggers[i].trigger;
      AskedIsReached(rs, ts, t, t.source.value.kind, event.kind);
    }
  }

  /** Main result. Take any run of the engine, a reload with triggers `ts`, and anything after it but
      another reload. An event that would change the engine now (make a call, promote or drop an await,
      or resolve one) is taken by a receiver of those that the pump's reconcile with `ts` leaves. */
  lemma NeededIsReceived(
      earlier: seq<Input>, ts: seq<Trigger>, later: seq<Input>, rs: seq<Receiver>, event: Event,
      context: Option<Context>, replies: nat -> Reply, json: Json)
    requires forall i :: i in later ==> !i.Reload?
    requires var s := EngineRun(Reloaded(EngineRun(START, earlier, json), ts, json), later, json);
             Dispatched(s, event, context, replies, json) != s
    ensures Reached(Reconciled(rs, Covering.Reduced(RawPatterns(ts))), event.kind)
  {
    var start := EngineRun(START, earlier, json);
    EngineAccounts(earlier, json, 0);
    var s := Reloaded(start, ts, json);
    assert Serves(s, ts, json);
    ServesOn(s, ts, later, json);
    ChangerIsReached(EngineRun(s, later, json), ts, rs, event, context, replies, json);
  }

  lemma ReducedIsRaw(raw: seq<string>, p: string)
    requires p in Covering.Reduced(raw)
    ensures p in raw
  {
    Covering.ReducedMembers(raw, p);
  }

  /** And nothing else is listened for: each receiver's pattern is one that some trigger asks for. */
  lemma ReceivedIsAsked(rs: seq<Receiver>, ts: seq<Trigger>, r: Receiver)
    requires r in Reconciled(rs, Covering.Reduced(RawPatterns(ts)))
    ensures AskedBy(ts, r.pattern)
  {
    ReceiversExactly(rs, Covering.Reduced(RawPatterns(ts)), r);
    ReducedIsRaw(RawPatterns(ts), r.pattern);
    PatternsExactly(ts, r.pattern);
  }
}
