/**
 What the sections of the await machine do, said of the events and entries themselves: which entry
 an event takes, what a promoted entry carries, what an `.awaited` event says and what a sweep
 leaves.
 */
module AwaitLaws {
  import opened Prelude
  import opened Values
  import opened AwaitPools
  import Glob
  import Interpolation

  /** The payload is an object that has every required field with exactly the required value. */
  predicate HasFields(required: map<string, Value>, payload: Value) {
    forall k :: k in required ==> payload.Obj? && k in payload.fields && payload.fields[k] == required[k]
  }

  lemma PayloadExactly(required: map<string, Value>, payload: Value)
    ensures PayloadMatches(required, payload) <==> HasFields(required, payload)
  {
  }

  // ----- completions -----

  predicate FirstOf(ps: seq<Preflight>, action: string, i: nat) {
    i < |ps| && ps[i].action == action && forall k :: 0 <= k < i ==> ps[k].action != action
  }

  lemma FirstOfAction(ps: seq<Preflight>, action: string, i: nat)
    requires FirstOf(ps, action, i)
    ensures FirstIndex(ps, RunsAction(action)) == i
  {
    assert RunsAction(action)(ps[i]);
  }

  /** The first preflight of the action the registry reports as completed moves to the end of the
      pending list, carrying its name, deadline, policy and original payload, the completion's payload
      as the action's result, and its template filled in. */
  lemma CompletedPromotes(s: Pools, event: Event, json: Value -> string, action: string, i: nat)
    requires event.source == "copad.action" && event.kind == action + ".completed"
    requires FirstOf(s.preflight, action, i)
    ensures var next, p := Advanced(s, event, json), s.preflight[i];
            && next.preflight == s.preflight[..i] + s.preflight[i + 1..]
            && |next.pending| == |s.pending| + 1 && s.pending <= next.pending
            && var q := next.pending[|s.pending|];
               var env := Interpolation.Env(p.event, p.context, Some(event.payload), json);
               && q.id == p.id && q.name == p.name && q.awaitKind == p.awaitKind
               && q.originalPayload == p.event.payload && q.actionResult == event.payload
               && q.deadline == p.deadline && q.policy == p.policy
               && q.payloadMatch.Keys == p.template.Keys
               && forall k :: k in p.template ==>
                    q.payloadMatch[k] == Interpolation.TypedValue(p.template[k], env)
  {
    AnnouncesExactly(event, action, true);
    FirstOfAction(s.preflight, action, i);
  }

  lemma FailedDrops(s: Pools, event: Event, json: Value -> string, action: string, i: nat)
    requires event.source == "copad.action" && event.kind == action + ".failed"
    requires FirstOf(s.preflight, action, i)
    ensures Advanced(s, event, json)
            == s.(preflight := s.preflight[..i] + s.preflight[i + 1..],
                  ended := s.ended + [Slip(s.preflight[i].id, Failed)])
  {
    AnnouncesExactly(event, action, false);
    FirstOfAction(s.preflight, action, i);
  }

  lemma NobodyWaits(s: Pools, event: Event, json: Value -> string, action: string)
    requires event.kind == action + ".completed" || event.kind == action + ".failed"
    requires forall k :: 0 <= k < |s.preflight| ==> s.preflight[k].action != action
    ensures Advanced(s, event, json) == s
  {
    AnnouncesExactly(event, action, true);
    AnnouncesExactly(event, action, false);
    if Announces(event).Some? {
      var c := Announces(event).value;
      AnnouncesExactly(event, c.action, c.success);
      EndsOneWay(event.kind);
      StripsExactly(event.kind, ".completed", action);
      StripsExactly(event.kind, ".failed", action);
      var i := FirstIndex(s.preflight, RunsAction(c.action));
      assert c.action == action;
      assert i < |s.preflight| ==> RunsAction(action)(s.preflight[i]);
    }
  }

  // ----- the awaited event -----

  /** The event an entry waits for. */
  ghost predicate Expects(p: Pending, event: Event) {
    Glob.StandsFor(p.awaitKind, event.kind) && HasFields(p.payloadMatch, event.payload)
  }

  lemma AwaitsExactly(p: Pending, event: Event)
    ensures Awaits(p, event) <==> Expects(p, event)
  {
    Glob.MatchesExactly(p.awaitKind, event.kind);
    PayloadExactly(p.payloadMatch, event.payload);
  }

  /** What an `.awaited` event carries: the awaited payload under `await`, the action's result, if there
      is one, under `action_result`, and otherwise the fields of the original payload. */
  lemma PayloadLayers(original: Value, awaited: Value, result: Option<Value>, k: string)
    ensures AwaitedPayload(original, awaited, result).Obj?
    ensures Get(AwaitedPayload(original, awaited, result), k)
            == if k == "await" then Some(awaited)
               else if k == "action_result" then result
               else if original.Obj? && k in original.fields then Some(original.fields[k])
               else None
  {
  }

  /** The first pending entry that expects the event is taken out, and announced under its trigger's
      name with the event's payload as the awaited one. */
  lemma EventResolves(s: Pools, event: Event, i: nat)
    requires i < |s.pending| && Expects(s.pending[i], event)
    requires forall k :: 0 <= k < i ==> !Expects(s.pending[k], event)
    ensures var p := s.pending[i];
            var said := AwaitedPayload(p.originalPayload, event.payload, Some(p.actionResult));
            Matched(s, event)
            == s.(pending := s.pending[..i] + s.pending[i + 1..],
                  outbox := s.outbox + [Emission(p.id, p.name + ".awaited", said)],
                  ended := s.ended + [Slip(p.id, Emitted)])
  {
    forall k | 0 <= k <= i
      ensures AwaitsEvent(event)(s.pending[k]) <==> Expects(s.pending[k], event)
    {
      AwaitsExactly(s.pending[k], event);
    }
    var f := FirstIndex(s.pending, AwaitsEvent(event));
    assert !(f < i) && !(i < f);
  }

  lemma NobodyExpects(s: Pools, event: Event)
    requires forall k :: 0 <= k < |s.pending| ==> !Expects(s.pending[k], event)
    ensures Matched(s, event) == s
  {
    var f := FirstIndex(s.pending, AwaitsEvent(event));
    if f < |s.pending| {
      AwaitsExactly(s.pending[f], event);
      assert false;
    }
  }

  // ----- registering -----

  /** A registration keeps what its promotion and its time-out will need. */
  lemma RegistersWhole(
      s: Pools, name: string, action: string, aw: AwaitClause, event: Event, context: Option<Context>, now: nat)
    ensures var next := Registered(s, name, action, aw, event, context, now);
            && next.preflight == s.preflight + [Preflight(s.nextId, name, action, aw.kind, aw.payloadMatch, event,
                                                          context, now + aw.timeout, aw.policy)]
            && next.pending == s.pending && next.outbox == s.outbox && next.published == s.published
            && next.ended == s.ended && next.nextId == s.nextId + 1
  {
  }

  // ----- sweeping -----

  lemma {:induction false} PreflightSaid(expired: seq<Preflight>, e: Emission)
    ensures e in PreflightDefaults(expired) <==>
            exists p :: p in expired && p.policy == FireWithDefault
                        && e == Emission(p.id, p.name + ".awaited", AwaitedPayload(p.event.payload, Null, None))
  {
    if expired == [] {
    } else {
      PreflightSaid(expired[1..], e);
      assert forall p :: p in expired <==> p == expired[0] || p in expired[1..];
    }
  }

  lemma {:induction false} PendingSaid(expired: seq<Pending>, e: Emission)
    ensures e in PendingDefaults(expired) <==>
            exists p :: p in expired && p.policy == FireWithDefault
                        && e == Emission(p.id, p.name + ".awaited",
                                         AwaitedPayload(p.originalPayload, Null, Some(p.actionResult)))
  {
    if expired == [] {
    } else {
      PendingSaid(expired[1..], e);
      assert forall p :: p in expired <==> p == expired[0] || p in expired[1..];
    }
  }

  lemma {:induction false} PreflightEnds(expired: seq<Preflight>, x: Slip)
    ensures x in PreflightSlips(expired, false) <==>
            exists p :: p in expired && x == Slip(p.id, if p.policy == FireWithDefault then Emitted else Aborted)
    ensures x in PreflightSlips(expired, true) <==> exists p :: p in expired && x == Slip(p.id, Cleared)
  {
    if expired == [] {
    } else {
      PreflightEnds(expired[1..], x);
      assert forall p :: p in expired <==> p == expired[0] || p in expired[1..];
    }
  }

  lemma {:induction false} PendingEnds(expired: seq<Pending>, x: Slip)
    ensures x in PendingSlips(expired, false) <==>
            exists p :: p in expired && x == Slip(p.id, if p.policy == FireWithDefault then Emitted else Aborted)
    ensures x in PendingSlips(expired, true) <==> exists p :: p in expired && x == Slip(p.id, Cleared)
  {
    if expired == [] {
    } else {
      PendingEnds(expired[1..], x);
      assert forall p :: p in expired <==> p == expired[0] || p in expired[1..];
    }
  }

  /** A sweep of the preflights keeps exactly what is due later, and says a default, without a result,
      for each entry due that asks for one. */
  lemma PreflightSweptExactly(s: Pools, now: nat, p: Preflight, e: Emission)
    ensures var next := SweptPreflight(s, now);
            && (p in next.preflight <==> p in s.preflight && now < p.deadline)
            && s.outbox <= next.outbox
            && (e in next.outbox[|s.outbox|..] <==>
                  exists x :: x in s.preflight && x.deadline <= now && x.policy == FireWithDefault
                              && e == Emission(x.id, x.name + ".awaited", AwaitedPayload(x.event.payload, Null, None)))
            && next.pending == s.pending && next.published == s.published
  {
    FilterMembers(s.preflight, PreflightLive(now));
    FilterMembers(s.preflight, PreflightExpired(now));
    PreflightSaid(Filter(s.preflight, PreflightExpired(now)), e);
    assert SweptPreflight(s, now).outbox[|s.outbox|..] == PreflightDefaults(Filter(s.preflight, PreflightExpired(now)));
  }

  /** A sweep of the pending entries likewise, with the action's result. */
  lemma PendingSweptExactly(s: Pools, now: nat, p: Pending, e: Emission)
    ensures var next := SweptPending(s, now);
            && (p in next.pending <==> p in s.pending && now < p.deadline)
            && s.outbox <= next.outbox
            && (e in next.outbox[|s.outbox|..] <==>
                  exists x :: x in s.pending && x.deadline <= now && x.policy == FireWithDefault
                              && e == Emission(x.id, x.name + ".awaited",
                                               AwaitedPayload(x.originalPayload, Null, Some(x.actionResult))))
            && next.preflight == s.preflight && next.published == s.published
  {
    FilterMembers(s.pending, PendingLive(now));
    FilterMembers(s.pending, PendingExpired(now));
    PendingSaid(Filter(s.pending, PendingExpired(now)), e);
    assert SweptPending(s, now).outbox[|s.outbox|..] == PendingDefaults(Filter(s.pending, PendingExpired(now)));
  }
}
