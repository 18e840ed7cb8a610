/**
 Whole runs of the await pools at lock granularity: dispatching threads, the sweeping timer and a
 reload interleave critical section by critical section. Registrations are conserved, move only
 forward and announce themselves at most once; deadlines never move; the single preflight list
 behaves as one queue per action.
 */
module AwaitLifecycle {
  import opened Prelude
  import opened Values
  import opened AwaitPools

  datatype Step =
    | Register(name: string, action: string, clause: AwaitClause, event: Event, context: Option<Context>, now: nat)
    | Advance(event: Event)
    | Match(event: Event)
    | SweepPreflight(now: nat)
    | SweepPending(now: nat)
    | Publish(i: nat)
    | ClearPreflight
    | ClearPending

  function Next(s: Pools, t: Step, json: Value -> string): Pools {
    match t
    case Register(name, action, clause, event, context, now) => Registered(s, name, action, clause, event, context, now)
    case Advance(event) => Advanced(s, event, json)
    case Match(event) => Matched(s, event)
    case SweepPreflight(now) => SweptPreflight(s, now)
    case SweepPending(now) => SweptPending(s, now)
    case Publish(i) => if i < |s.outbox| then Published(s, i) else s
    case ClearPreflight => PreflightCleared(s)
    case ClearPending => PendingCleared(s)
  }

  function Run(s: Pools, steps: seq<Step>, json: Value -> string): Pools {
    if steps == [] then s else Next(Run(s, steps[..|steps| - 1], json), steps[|steps| - 1], json)
  }

  // ----- where a registration is -----

  function PreflightId(id: nat): Preflight -> bool {
    (p: Preflight) => p.id == id
  }

  function PendingId(id: nat): Pending -> bool {
    (p: Pending) => p.id == id
  }

  function SlipId(id: nat): Slip -> bool {
    (x: Slip) => x.id == id
  }

  function EmittedId(id: nat): Slip -> bool {
    (x: Slip) => x.id == id && x.end.Emitted?
  }

  function EmissionId(id: nat): Emission -> bool {
    (x: Emission) => x.id == id
  }

  /** In how many places a registration is. */
  function Places(s: Pools, id: nat): nat {
    Count(s.preflight, PreflightId(id)) + Count(s.pending, PendingId(id)) + Count(s.ended, SlipId(id))
  }

  /** How many awaited events carry its name on their way to the bus or on it. */
  function Announcements(s: Pools, id: nat): nat {
    Count(s.outbox, EmissionId(id)) + Count(s.published, EmissionId(id))
  }

  predicate Accounted(s: Pools, id: nat) {
    Places(s, id) == (if id < s.nextId then 1 else 0)
    && Announcements(s, id) == Count(s.ended, EmittedId(id))
  }

  predicate OnTime(s: Pools) {
    && (forall p :: p in s.preflight ==> p.id in s.due && p.deadline == s.due[p.id])
    && (forall p :: p in s.pending ==> p.id in s.due && p.deadline == s.due[p.id])
    && (forall id :: id in s.due ==> id < s.nextId)
  }

  ghost predicate Sound(s: Pools) {
    (forall id: nat :: Accounted(s, id)) && OnTime(s)
  }

  // ----- each section conserves registrations -----

  lemma {:induction false} SlipsCount(pre: seq<Preflight>, cleared: bool, id: nat)
    ensures Count(PreflightSlips(pre, cleared), SlipId(id)) == Count(pre, PreflightId(id))
  {
    if pre == [] {
    } else {
      SlipsCount(pre[1..], cleared, id);
      assert PreflightSlips(pre, cleared)[1..] == PreflightSlips(pre[1..], cleared);
    }
  }

  lemma {:induction false} PendingSlipsCount(pen: seq<Pending>, cleared: bool, id: nat)
    ensures Count(PendingSlips(pen, cleared), SlipId(id)) == Count(pen, PendingId(id))
  {
    if pen == [] {
    } else {
      PendingSlipsCount(pen[1..], cleared, id);
      assert PendingSlips(pen, cleared)[1..] == PendingSlips(pen[1..], cleared);
    }
  }

  lemma {:induction false} ClearedPreflightEmitsNothing(pre: seq<Preflight>, id: nat)
    ensures Count(PreflightSlips(pre, true), EmittedId(id)) == 0
  {
    if pre == [] {
    } else {
      ClearedPreflightEmitsNothing(pre[1..], id);
      assert PreflightSlips(pre, true)[1..] == PreflightSlips(pre[1..], true);
    }
  }

  lemma {:induction false} ClearedPendingEmitsNothing(pen: seq<Pending>, id: nat)
    ensures Count(PendingSlips(pen, true), EmittedId(id)) == 0
  {
    if pen == [] {
    } else {
      ClearedPendingEmitsNothing(pen[1..], id);
      assert PendingSlips(pen, true)[1..] == PendingSlips(pen[1..], true);
    }
  }

  /** An expired entry is announced exactly when its slip says so. */
  lemma {:induction false} PreflightDefaultsCount(expired: seq<Preflight>, id: nat)
    ensures Count(PreflightDefaults(expired), EmissionId(id)) == Count(PreflightSlips(expired, false), EmittedId(id))
  {
    if expired == [] {
    } else {
      PreflightDefaultsCount(expired[1..], id);
      assert PreflightSlips(expired, false)[1..] == PreflightSlips(expired[1..], false);
      var p := expired[0];
      if p.policy.FireWithDefault? {
        assert PreflightDefaults(expired)[1..] == PreflightDefaults(expired[1..]);
      } else {
        assert PreflightDefaults(expired) == PreflightDefaults(expired[1..]);
      }
    }
  }

  lemma {:induction false} PendingDefaultsCount(expired: seq<Pending>, id: nat)
    ensures Count(PendingDefaults(expired), EmissionId(id)) == Count(PendingSlips(expired, false), EmittedId(id))
  {
    if expired == [] {
    } else {
      PendingDefaultsCount(expired[1..], id);
      assert PendingSlips(expired, false)[1..] == PendingSlips(expired[1..], false);
      var p := expired[0];
      if p.policy.FireWithDefault? {
        assert PendingDefaults(expired)[1..] == PendingDefaults(expired[1..]);
      } else {
        assert PendingDefaults(expired) == PendingDefaults(expired[1..]);
      }
    }
  }

  lemma RegisterAccounts(
      s: Pools, name: string, action: string, aw: AwaitClause, event: Event, context: Option<Context>, now: nat,
      id: nat)
    requires Accounted(s, id)
    ensures Accounted(Registered(s, name, action, aw, event, context, now), id)
  {
    var next := Registered(s, name, action, aw, event, context, now);
    CountSnoc(s.preflight, next.preflight[|s.preflight|], PreflightId(id));
  }

  lemma AdvanceAccounts(s: Pools, event: Event, json: Value -> string, id: nat)
    requires Accounted(s, id)
    ensures Accounted(Advanced(s, event, json), id)
  {
    var c := Announces(event);
    if c.Some? {
      var i := FirstIndex(s.preflight, RunsAction(c.value.action));
      if i < |s.preflight| {
        var p := s.preflight[i];
        CountRemoveAt(s.preflight, i, PreflightId(id));
        if c.value.success {
          CountSnoc(s.pending, Promoted(p, event.payload, json), PendingId(id));
        } else {
          CountSnoc(s.ended, Slip(p.id, Failed), SlipId(id));
          CountSnoc(s.ended, Slip(p.id, Failed), EmittedId(id));
        }
      }
    }
  }

  lemma MatchAccounts(s: Pools, event: Event, id: nat)
    requires Accounted(s, id)
    ensures Accounted(Matched(s, event), id)
  {
    var i := FirstIndex(s.pending, AwaitsEvent(event));
    if i < |s.pending| {
      var p := s.pending[i];
      CountRemoveAt(s.pending, i, PendingId(id));
      CountSnoc(s.ended, Slip(p.id, Emitted), SlipId(id));
      CountSnoc(s.ended, Slip(p.id, Emitted), EmittedId(id));
      CountSnoc(s.outbox, Resolution(p, event), EmissionId(id));
    }
  }

  lemma SweepPreflightAccounts(s: Pools, now: nat, id: nat)
    requires Accounted(s, id)
    ensures Accounted(SweptPreflight(s, now), id)
  {
    var expired := Filter(s.preflight, PreflightExpired(now));
    CountSplit(s.preflight, PreflightLive(now), PreflightExpired(now), PreflightId(id));
    SlipsCount(expired, false, id);
    PreflightDefaultsCount(expired, id);
    CountConcat(s.ended, PreflightSlips(expired, false), SlipId(id));
    CountConcat(s.ended, PreflightSlips(expired, false), EmittedId(id));
    CountConcat(s.outbox, PreflightDefaults(expired), EmissionId(id));
  }

  lemma SweepPendingAccounts(s: Pools, now: nat, id: nat)
    requires Accounted(s, id)
    ensures Accounted(SweptPending(s, now), id)
  {
    var expired := Filter(s.pending, PendingExpired(now));
    CountSplit(s.pending, PendingLive(now), PendingExpired(now), PendingId(id));
    PendingSlipsCount(expired, false, id);
    PendingDefaultsCount(expired, id);
    CountConcat(s.ended, PendingSlips(expired, false), SlipId(id));
    CountConcat(s.ended, PendingSlips(expired, false), EmittedId(id));
    CountConcat(s.outbox, PendingDefaults(expired), EmissionId(id));
  }

  lemma ClearAccounts(s: Pools, id: nat)
    requires Accounted(s, id)
    ensures Accounted(PreflightCleared(s), id) && Accounted(PendingCleared(s), id)
  {
    SlipsCount(s.preflight, true, id);
    PendingSlipsCount(s.pending, true, id);
    ClearedPreflightEmitsNothing(s.preflight, id);
    ClearedPendingEmitsNothing(s.pending, id);
    CountConcat(s.ended, PreflightSlips(s.preflight, true), SlipId(id));
    CountConcat(s.ended, PreflightSlips(s.preflight, true), EmittedId(id));
    CountConcat(s.ended, PendingSlips(s.pending, true), SlipId(id));
    CountConcat(s.ended, PendingSlips(s.pending, true), EmittedId(id));
  }

  lemma NextAccounts(s: Pools, t: Step, json: Value -> string, id: nat)
    requires Accounted(s, id)
    ensures Accounted(Next(s, t, json), id)
  {
    match t
    case Register(name, action, clause, event, context, now) =>
      RegisterAccounts(s, name, action, clause, event, context, now, id);
    case Advance(event) => AdvanceAccounts(s, event, json, id);
    case Match(event) => MatchAccounts(s, event, id);
    case SweepPreflight(now) => SweepPreflightAccounts(s, now, id);
    case SweepPending(now) => SweepPendingAccounts(s, now, id);
    case Publish(i) =>
      if i < |s.outbox| {
        CountRemoveAt(s.outbox, i, EmissionId(id));
        CountSnoc(s.published, s.outbox[i], EmissionId(id));
      }
    case ClearPreflight => ClearAccounts(s, id);
    case ClearPending => ClearAccounts(s, id);
  }

  lemma AdvanceOnTime(s: Pools, event: Event, json: Value -> string)
    requires OnTime(s)
    ensures OnTime(Advanced(s, event, json))
  {
  }

  lemma NextOnTime(s: Pools, t: Step, json: Value -> string)
    requires OnTime(s)
    ensures OnTime(Next(s, t, json))
  {
    match t
    case Advance(event) => AdvanceOnTime(s, event, json);
    case SweepPreflight(now) => FilterMembers(s.preflight, PreflightLive(now));
    case SweepPending(now) => FilterMembers(s.pending, PendingLive(now));
    case _ =>
  }

  lemma {:induction false} RunSound(s: Pools, steps: seq<Step>, json: Value -> string)
    requires Sound(s)
    ensures Sound(Run(s, steps, json))
  {
    if steps == [] {
    } else {
      var before := steps[..|steps| - 1];
      RunSound(s, before, json);
      var t := steps[|steps| - 1];
      forall id: nat
        ensures Accounted(Run(s, steps, json), id)
      {
        assert Accounted(Run(s, before, json), id);
        NextAccounts(Run(s, before, json), t, json, id);
      }
      NextOnTime(Run(s, before, json), t, json);
    }
  }

  // ----- main results -----

  lemma {:induction false} EmittedIsSlip(ended: seq<Slip>, id: nat)
    ensures Count(ended, EmittedId(id)) <= Count(ended, SlipId(id))
  {
    if ended == [] {
    } else {
      EmittedIsSlip(ended[1..], id);
    }
  }

  lemma EmptyIsSound()
    ensures Sound(EMPTY_POOLS)
  {
  }

  /** In every run from the empty pools, every registration is in exactly one place (preflight,
      pending, or out with one recorded end), nothing else is anywhere, and the awaited events
      carrying its name are one if it ended by being emitted and none otherwise. */
  lemma RegistrationsConserved(steps: seq<Step>, json: Value -> string, id: nat)
    ensures var s := Run(EMPTY_POOLS, steps, json);
            && Places(s, id) == (if id < s.nextId then 1 else 0)
            && Announcements(s, id) == Count(s.ended, EmittedId(id)) <= 1
  {
    EmptyIsSound();
    RunSound(EMPTY_POOLS, steps, json);
    var s := Run(EMPTY_POOLS, steps, json);
    assert Accounted(s, id);
    EmittedIsSlip(s.ended, id);
  }

  lemma KeepsFewer(s: seq<Preflight>, keep: Preflight -> bool, drop: Preflight -> bool, id: nat)
    requires forall x :: keep(x) <==> !drop(x)
    ensures Count(Filter(s, keep), PreflightId(id)) <= Count(s, PreflightId(id))
  {
    CountSplit(s, keep, drop, PreflightId(id));
  }

  /** Movement is only forward: out of preflight for good, and an end once recorded stays. */
  lemma OnlyForward(s: Pools, t: Step, json: Value -> string, id: nat)
    requires id < s.nextId
    ensures var next := Next(s, t, json);
            && s.nextId <= next.nextId && s.ended <= next.ended
            && Count(next.preflight, PreflightId(id)) <= Count(s.preflight, PreflightId(id))
            && (id in s.due ==> id in next.due && next.due[id] == s.due[id])
  {
    match t
    case Register(name, action, clause, event, context, now) =>
      CountSnoc(s.preflight, Next(s, t, json).preflight[|s.preflight|], PreflightId(id));
    case Advance(event) =>
      var c := Announces(event);
      if c.Some? && FirstIndex(s.preflight, RunsAction(c.value.action)) < |s.preflight| {
        CountRemoveAt(s.preflight, FirstIndex(s.preflight, RunsAction(c.value.action)), PreflightId(id));
      }
    case SweepPreflight(now) => KeepsFewer(s.preflight, PreflightLive(now), PreflightExpired(now), id);
    case _ =>
  }

  lemma {:induction false} StaysOut(s: Pools, steps: seq<Step>, json: Value -> string, id: nat)
    requires id < s.nextId && Count(s.preflight, PreflightId(id)) == 0
    ensures id < Run(s, steps, json).nextId && Count(Run(s, steps, json).preflight, PreflightId(id)) == 0
  {
    if steps == [] {
    } else {
      var before := steps[..|steps| - 1];
      StaysOut(s, before, json, id);
      OnlyForward(Run(s, before, json), steps[|steps| - 1], json, id);
    }
  }

  /** A sweep at time `now` is two sections, and anything may happen between them. Whatever was
      registered before it started and was due by then is in neither pool afterwards. */
  lemma SweepCleans(s: Pools, between: seq<Step>, json: Value -> string, now: nat)
    requires Sound(s)
    ensures var swept := SweptPending(Run(SweptPreflight(s, now), between, json), now);
            && Sound(swept)
            && (forall p :: p in swept.preflight && p.id < s.nextId ==> p.deadline > now && swept.due[p.id] > now)
            && (forall p :: p in swept.pending ==> p.deadline > now && swept.due[p.id] > now)
  {
    var first := SweptPreflight(s, now);
    var middle := Run(first, between, json);
    var swept := SweptPending(middle, now);
    RunSound(s, [SweepPreflight(now)], json);
    OneStep(s, SweepPreflight(now), json);
    RunSound(first, between, json);
    RunSound(middle, [SweepPending(now)], json);
    OneStep(middle, SweepPending(now), json);
    FilterMembers(middle.pending, PendingLive(now));
    forall p | p in swept.preflight && p.id < s.nextId
      ensures p.deadline > now
    {
      OldPreflightIsLive(s, first, middle, between, json, now, p);
    }
  }

  lemma OneStep(s: Pools, t: Step, json: Value -> string)
    ensures Run(s, [t], json) == Next(s, t, json)
  {
    assert [t][..0] == [];
  }

  /** An entry still in preflight after the whole sweep was live when the preflights were swept. */
  lemma OldPreflightIsLive(
      s: Pools, first: Pools, middle: Pools, between: seq<Step>, json: Value -> string, now: nat, p: Preflight)
    requires Sound(s) && first == SweptPreflight(s, now) && middle == Run(first, between, json)
    requires Sound(first) && Sound(middle)
    requires p in middle.preflight && p.id < s.nextId
    ensures p.deadline > now
  {
    CountZero(middle.preflight, PreflightId(p.id));
    CountZero(first.preflight, PreflightId(p.id));
    if Count(first.preflight, PreflightId(p.id)) == 0 {
      StaysOut(first, between, json, p.id);
    }
    var q :| q in first.preflight && q.id == p.id;
    FilterMembers(s.preflight, PreflightLive(now));
    DueKept(first, between, json, p.id);
  }

  lemma {:induction false} DueKept(s: Pools, steps: seq<Step>, json: Value -> string, id: nat)
    requires id < s.nextId && id in s.due
    ensures var r := Run(s, steps, json); id < r.nextId && id in r.due && r.due[id] == s.due[id]
  {
    if steps == [] {
    } else {
      var before := steps[..|steps| - 1];
      DueKept(s, before, json, id);
      OnlyForward(Run(s, before, json), steps[|steps| - 1], json, id);
    }
  }

  /** The deadline an entry is registered with is the one it has in whatever pool it is in later. */
  lemma DeadlineNeverMoves(
      steps: seq<Step>, more: seq<Step>, json: Value -> string, clause: AwaitClause,
      name: string, action: string, event: Event, context: Option<Context>, now: nat)
    ensures var s := Run(EMPTY_POOLS, steps, json);
            var id := s.nextId;
            var later := Run(Next(s, Register(name, action, clause, event, context, now), json), more, json);
            && (forall p :: p in later.preflight && p.id == id ==> p.deadline == now + clause.timeout)
            && (forall p :: p in later.pending && p.id == id ==> p.deadline == now + clause.timeout)
  {
    EmptyIsSound();
    RunSound(EMPTY_POOLS, steps, json);
    var s := Run(EMPTY_POOLS, steps, json);
    var t := Register(name, action, clause, event, context, now);
    RunSound(s, [t], json);
    OneStep(s, t, json);
    var registered := Next(s, t, json);
    DueKept(registered, more, json, s.nextId);
    RunSound(registered, more, json);
  }
}
