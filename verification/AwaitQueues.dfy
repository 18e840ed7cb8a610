/**
 The engine keeps one preflight list for all actions. Seen action by action it is a set of FIFO
 queues: registering appends to one queue, a completion takes the head of one queue, a sweep thins
 every queue, and no operation disturbs the order inside a queue.
 */
module AwaitQueues {
  import opened Prelude
  import opened Values
  import opened AwaitPools
  import opened AwaitLifecycle

  function Queue(s: Pools, action: string): seq<Preflight> {
    Filter(s.preflight, RunsAction(action))
  }

  lemma FilterFirst(s: seq<Preflight>, a: seq<Preflight>, x: Preflight, b: seq<Preflight>, keep: Preflight -> bool)
    requires s == a + [x] + b && Filter(a, keep) == [] && keep(x)
    ensures Filter(s, keep) == [x] + Filter(a + b, keep)
  {
    FilterAround(s, a, x, b, keep);
    var rest := Filter(b, keep);
    assert [] + rest == rest;
    assert [] + [x] + rest == [x] + rest;
  }

  lemma PrefixNone(s: seq<Preflight>, a: seq<Preflight>, keep: Preflight -> bool)
    requires |a| == FirstIndex(s, keep) && a <= s
    ensures Filter(a, keep) == []
  {
  }

  /** Removing the first match drops the head of its own queue. */
  lemma RemoveFirstMatch(s: seq<Preflight>, action: string, i: nat)
    requires i == FirstIndex(s, RunsAction(action)) < |s|
    ensures Filter(s, RunsAction(action)) == [s[i]] + Filter(RemoveAt(s, i), RunsAction(action))
  {
    PrefixNone(s, s[..i], RunsAction(action));
    AroundAt(s, i);
    FilterFirst(s, s[..i], s[i], s[i + 1..], RunsAction(action));
  }

  /** Removing an element of another queue leaves a queue alone. */
  lemma RemoveOther(s: seq<Preflight>, i: nat, action: string)
    requires i < |s| && s[i].action != action
    ensures Filter(RemoveAt(s, i), RunsAction(action)) == Filter(s, RunsAction(action))
  {
    AroundAt(s, i);
    var a, b := s[..i], s[i + 1..];
    FilterAround(s, a, s[i], b, RunsAction(action));
  }

  lemma RegisterAppends(
      s: Pools, name: string, action: string, aw: AwaitClause, event: Event, context: Option<Context>, now: nat,
      other: string)
    ensures var next := Registered(s, name, action, aw, event, context, now);
            var p := next.preflight[|s.preflight|];
            && p.id == s.nextId && p.action == action
            && Queue(next, other) == Queue(s, other) + if other == action then [p] else []
  {
    var next := Registered(s, name, action, aw, event, context, now);
    FilterConcat(s.preflight, [next.preflight[|s.preflight|]], RunsAction(other));
  }

  lemma AnnouncedTakesHead(s: Pools, event: Event, json: Value -> string, c: Completion, other: string)
    requires Announces(event) == Some(c)
    ensures var next, queue := Advanced(s, event, json), Queue(s, c.action);
            if queue == [] then next == s
            else
              && Queue(next, other) == (if other == c.action then queue[1..] else Queue(s, other))
              && next.pending == s.pending + (if c.success then [Promoted(queue[0], event.payload, json)] else [])
              && next.ended == s.ended + (if c.success then [] else [Slip(queue[0].id, Failed)])
  {
    var i := FirstIndex(s.preflight, RunsAction(c.action));
    if i == |s.preflight| {
      PrefixNone(s.preflight, s.preflight, RunsAction(c.action));
    } else {
      RemoveFirstMatch(s.preflight, c.action, i);
      if other != c.action {
        RemoveOther(s.preflight, i, other);
      }
    }
  }

  /** What the action registry publishes about `action` takes the head of that queue, if there is one:
      `.completed` makes it the newest pending entry, `.failed` only removes it. Every other queue
      keeps its contents. */
  lemma AdvanceTakesHead(s: Pools, event: Event, json: Value -> string, action: string, other: string)
    requires event.source == "copad.action"
    requires event.kind == action + ".completed" || event.kind == action + ".failed"
    ensures var next, queue := Advanced(s, event, json), Queue(s, action);
            if queue == [] then next == s
            else
              && Queue(next, other) == (if other == action then queue[1..] else Queue(s, other))
              && (event.kind == action + ".completed" ==>
                    next.pending == s.pending + [Promoted(queue[0], event.payload, json)] && next.ended == s.ended)
              && (event.kind == action + ".failed" ==>
                    next.pending == s.pending && next.ended == s.ended + [Slip(queue[0].id, Failed)])
  {
    AnnouncesExactly(event, action, true);
    AnnouncesExactly(event, action, false);
    var ok := Announces(event) == Some(Completion(action, true));
    AnnouncedTakesHead(s, event, json, Completion(action, ok), other);
    AppendNothing(s.pending);
    AppendNothing(s.ended);
  }

  /** Every other event leaves the preflight list, and everything else, alone. */
  lemma OthersPassBy(s: Pools, event: Event, json: Value -> string)
    requires event.source != "copad.action"
             || forall a: string :: event.kind != a + ".completed" && event.kind != a + ".failed"
    ensures Advanced(s, event, json) == s
  {
    if Announces(event).Some? {
      var c := Announces(event).value;
      AnnouncesExactly(event, c.action, c.success);
      assert false;
    }
  }

  /** A sweep thins every queue to its live entries, in order. */
  lemma SweepThins(s: Pools, now: nat, action: string)
    ensures Queue(SweptPreflight(s, now), action) == Filter(Queue(s, action), PreflightLive(now))
  {
    FilterSwap(s.preflight, PreflightLive(now), RunsAction(action));
  }

  // ----- over whole runs -----

  ghost predicate Ascends(ps: seq<Preflight>) {
    forall i, j :: 0 <= i < j < |ps| ==> ps[i].id < ps[j].id
  }

  /** The preflight list stands in the order of registration. */
  ghost predicate InOrder(s: Pools) {
    Ascends(s.preflight) && forall p :: p in s.preflight ==> p.id < s.nextId
  }

  lemma {:induction false} FilterAscends(ps: seq<Preflight>, keep: Preflight -> bool)
    requires Ascends(ps)
    ensures Ascends(Filter(ps, keep))
  {
    if ps == [] {
    } else {
      FilterAscends(ps[1..], keep);
      FilterHead(ps, keep);
      if keep(ps[0]) {
        FilterMembers(ps[1..], keep);
        HeadAscends(ps[0], ps[1..], Filter(ps[1..], keep));
      }
    }
  }

  lemma HeadAscends(p: Preflight, all: seq<Preflight>, some: seq<Preflight>)
    requires Ascends([p] + all) && Ascends(some) && forall x :: x in some ==> x in all
    ensures Ascends([p] + some)
  {
    forall j | 0 <= j < |some|
      ensures p.id < some[j].id
    {
      assert some[j] in all;
      var k :| 0 <= k < |all| && all[k] == some[j];
      assert ([p] + all)[0].id < ([p] + all)[k + 1].id;
    }
  }

  lemma AdvanceInOrder(s: Pools, event: Event, json: Value -> string)
    requires InOrder(s)
    ensures InOrder(Advanced(s, event, json))
  {
  }

  lemma SweepInOrder(s: Pools, now: nat)
    requires InOrder(s)
    ensures InOrder(SweptPreflight(s, now))
  {
    FilterAscends(s.preflight, PreflightLive(now));
    FilterMembers(s.preflight, PreflightLive(now));
  }

  lemma NextInOrder(s: Pools, t: Step, json: Value -> string)
    requires InOrder(s)
    ensures InOrder(Next(s, t, json))
  {
    match t
    case Advance(event) => AdvanceInOrder(s, event, json);
    case SweepPreflight(now) => SweepInOrder(s, now);
    case _ =>
  }

  lemma {:induction false} AlwaysInOrder(steps: seq<Step>, json: Value -> string)
    ensures InOrder(Run(EMPTY_POOLS, steps, json))
  {
    if steps == [] {
    } else {
      AlwaysInOrder(steps[..|steps| - 1], json);
      NextInOrder(Run(EMPTY_POOLS, steps[..|steps| - 1], json), steps[|steps| - 1], json);
    }
  }

  /** After every run, a completion takes the await that was registered first among those of its
      action still in preflight: whatever it takes is older than whatever it leaves. */
  lemma OldestGoesFirst(
      steps: seq<Step>, json: Value -> string, event: Event, action: string, p: Preflight, q: Preflight)
    requires event.source == "copad.action"
    requires event.kind == action + ".completed" || event.kind == action + ".failed"
    requires p in Queue(Run(EMPTY_POOLS, steps, json), action)
    requires q in Queue(Run(EMPTY_POOLS, steps, json), action)
    requires p !in Queue(Run(EMPTY_POOLS, steps + [Advance(event)], json), action)
    requires q in Queue(Run(EMPTY_POOLS, steps + [Advance(event)], json), action)
    ensures p.id < q.id
  {
    var s := Run(EMPTY_POOLS, steps, json);
    assert (steps + [Advance(event)])[..|steps|] == steps;
    AlwaysInOrder(steps, json);
    AdvanceTakesHead(s, event, json, action, action);
    FilterAscends(s.preflight, RunsAction(action));
    TakenIsOldest(Queue(s, action), p, q);
  }

  lemma TakenIsOldest(queue: seq<Preflight>, p: Preflight, q: Preflight)
    requires Ascends(queue) && p in queue && p !in queue[1..] && q in queue[1..]
    ensures p.id < q.id
  {
    assert queue == [queue[0]] + queue[1..] && p == queue[0];
    var j :| 0 <= j < |queue[1..]| && queue[1..][j] == q;
    assert queue[0].id < queue[j + 1].id;
  }

  // ----- the pending list stands in the order of promotion -----

  predicate Waits(s: Pools, id: nat) {
    exists p :: p in s.preflight && p.id == id
  }

  predicate Pends(s: Pools, id: nat) {
    exists p :: p in s.pending && p.id == id
  }

  lemma StoodBeforeMatch(s: Pools, event: Event, i: nat, j: nat) returns (p: nat, q: nat)
    requires i < j < |Matched(s, event).pending|
    ensures p < q < |s.pending|
    ensures s.pending[p] == Matched(s, event).pending[i] && s.pending[q] == Matched(s, event).pending[j]
  {
    var m := FirstIndex(s.pending, AwaitsEvent(event));
    if m == |s.pending| {
      p, q := i, j;
    } else {
      p, q := if i < m then i else i + 1, if j < m then j else j + 1;
      RemovedAt(s.pending, m, i);
      RemovedAt(s.pending, m, j);
    }
  }

  /** Where two pending entries stood before a step that promoted neither. */
  lemma StoodBefore(s: Pools, t: Step, json: Value -> string, i: nat, j: nat) returns (p: nat, q: nat)
    requires i < j < |Next(s, t, json).pending| && !(t.Advance? && j == |s.pending|)
    ensures p < q < |s.pending|
    ensures s.pending[p] == Next(s, t, json).pending[i] && s.pending[q] == Next(s, t, json).pending[j]
  {
    match t
    case Match(event) => p, q := StoodBeforeMatch(s, event, i, j);
    case SweepPending(now) => p, q := FilterPositions(s.pending, PendingLive(now), i, j);
    case _ => p, q := i, j;
  }

  /** The entry a completion promotes comes from preflight, behind what was pending already. */
  lemma JustPromoted(s: Pools, event: Event, json: Value -> string, i: nat)
    requires i < |s.pending| < |Advanced(s, event, json).pending|
    ensures Advanced(s, event, json).pending[i] == s.pending[i]
    ensures Waits(s, Advanced(s, event, json).pending[|s.pending|].id)
  {
    var m := FirstIndex(s.preflight, RunsAction(Announces(event).value.action));
    assert s.preflight[m] in s.preflight;
  }

  /** Of two pending entries the one that stands first was promoted first: at some moment of the run
      it was pending already while the other still waited in preflight. */
  lemma {:induction false} PromotedInOrder(steps: seq<Step>, json: Value -> string, i: nat, j: nat) returns (k: nat)
    requires i < j < |Run(EMPTY_POOLS, steps, json).pending|
    ensures k < |steps|
    ensures Pends(Run(EMPTY_POOLS, steps[..k], json), Run(EMPTY_POOLS, steps, json).pending[i].id)
    ensures Waits(Run(EMPTY_POOLS, steps[..k], json), Run(EMPTY_POOLS, steps, json).pending[j].id)
  {
    var last := |steps| - 1;
    var s, t := Run(EMPTY_POOLS, steps[..last], json), steps[last];
    if t.Advance? && j == |s.pending| {
      k := last;
      JustPromoted(s, t.event, json, i);
      assert s.pending[i] in s.pending;
    } else {
      var p, q := StoodBefore(s, t, json, i, j);
      k := PromotedInOrder(steps[..last], json, p, q);
      assert steps[..last][..k] == steps[..k];
    }
  }

  lemma TakenStoodFirst(s: Pools, event: Event, p: Pending, q: Pending) returns (i: nat, j: nat)
    requires p in s.pending && q in s.pending && Awaits(p, event) && Awaits(q, event)
    requires p !in Matched(s, event).pending && q in Matched(s, event).pending
    ensures i < j < |s.pending| && s.pending[i] == p && s.pending[j] == q
  {
    i := FirstIndex(s.pending, AwaitsEvent(event));
    assert AwaitsEvent(event)(p) && AwaitsEvent(event)(q);
    if p != s.pending[i] {
      OthersRemain(s.pending, i, p);
    }
    j :| 0 <= j < |s.pending| && s.pending[j] == q;
  }

  /** After every run, of the pending entries that match an event the one it takes was promoted before
      every one it leaves. */
  lemma OldestMatchGoesFirst(steps: seq<Step>, json: Value -> string, event: Event, p: Pending, q: Pending)
    returns (k: nat)
    requires p in Run(EMPTY_POOLS, steps, json).pending && Awaits(p, event)
    requires q in Run(EMPTY_POOLS, steps, json).pending && Awaits(q, event)
    requires p !in Run(EMPTY_POOLS, steps + [Match(event)], json).pending
    requires q in Run(EMPTY_POOLS, steps + [Match(event)], json).pending
    ensures k < |steps|
    ensures Pends(Run(EMPTY_POOLS, steps[..k], json), p.id) && Waits(Run(EMPTY_POOLS, steps[..k], json), q.id)
  {
    assert (steps + [Match(event)])[..|steps|] == steps;
    var i, j := TakenStoodFirst(Run(EMPTY_POOLS, steps, json), event, p, q);
    k := PromotedInOrder(steps, json, i, j);
  }
}
