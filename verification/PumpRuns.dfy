/**
 The pump, the publishers and configuration reloads as one step system. Publishers run at any time,
 between the drains of two receivers and between two dispatched events; a pump or a reload is
 exclusive against other pumps and reloads.
 */
module PumpRuns {
  import opened Prelude
  import opened Values
  import opened TriggerPump
  import AwaitPools
  import Glob
  import Covering

  /** Draining: `todo` are the receivers still to drain. A pump may belong to a reload with new
      patterns. Dropping: the reload drops the receivers that `raw` does not need, one by one, and
      the patterns in `gone` have lost theirs. Opening: `unopened` are the patterns still to
      subscribe to. */
  datatype Phase =
    | Idle
    | Draining(todo: set<nat>, reload: Option<seq<string>>)
    | Dispatching(reload: Option<seq<string>>)
    | Dropping(raw: seq<string>, gone: set<string>)
    | Opening(unopened: set<string>)

  /** `inForce` are the patterns of the last reload from the moment it has dropped old receivers;
      `mark` is how many events had been published when the last pump began. */
  datatype Pump = Pump(
    receivers: seq<Receiver>, inForce: seq<string>, phase: Phase, batch: seq<Item>,
    published: nat, mark: nat,
    offered: seq<Item>, dispatched: seq<Item>, lost: seq<Item>)

  const START := Pump([], [], Idle, [], 0, 0, [], [], [])

  datatype Step =
    | Publish(event: Event)
    | Begin(reload: Option<seq<string>>)
    | Drain(i: nat)
    | SortUp
    | DispatchNext
    | BeginDrop
    | Drop(i: nat)
    | BeginOpen
    | Open(pattern: string)
    | Finish

  function Offered(r: Receiver, item: Item): Receiver {
    if Glob.PatternMatches(r.pattern, item.event.kind) then r.(queue := r.queue + [item]) else r
  }

  function Delivered(rs: seq<Receiver>, item: Item): seq<Receiver> {
    seq(|rs|, i requires 0 <= i < |rs| => Offered(rs[i], item))
  }

  predicate Enabled(s: Pump, t: Step) {
    match t
    case Publish(_) => true
    case Begin(_) => s.phase.Idle?
    case Drain(i) => s.phase.Draining? && i in s.phase.todo && i < |s.receivers|
    case SortUp => s.phase.Draining? && s.phase.todo == {}
    case DispatchNext => s.phase.Dispatching? && s.batch != []
    case BeginDrop => s.phase.Dispatching? && s.batch == [] && s.phase.reload.Some?
    case Drop(i) =>
      s.phase.Dropping? && i < |s.receivers| && s.receivers[i].pattern !in Covering.Reduced(s.phase.raw)
    case BeginOpen =>
      s.phase.Dropping?
      && forall i :: 0 <= i < |s.receivers| ==> s.receivers[i].pattern in Covering.Reduced(s.phase.raw)
    case Open(p) => s.phase.Opening? && p in s.phase.unopened
    case Finish =>
      (s.phase.Dispatching? && s.batch == [] && s.phase.reload.None?) || (s.phase.Opening? && s.phase.unopened == {})
  }

  /** The patterns that have no receiver at the moment. */
  function Gap(phase: Phase): set<string> {
    match phase
    case Dropping(_, gone) => gone
    case Opening(unopened) => unopened
    case _ => {}
  }

  /** The event falls to a pattern whose receiver is gone already or not open yet. */
  predicate FallsInGap(s: Pump, kind: string) {
    exists p :: p in Gap(s.phase) && Glob.PatternMatches(p, kind)
  }

  function Published(s: Pump, event: Event): Pump {
    var item := Item(s.published, event);
    s.(published := s.published + 1,
       receivers := Delivered(s.receivers, item),
       offered := s.offered + (if Glob.AnyMatches(s.inForce, event.kind) then [item] else []),
       lost := s.lost + (if FallsInGap(s, event.kind) then [item] else []))
  }

  function Dropped(s: Pump, i: nat): Pump
    requires s.phase.Dropping? && i < |s.receivers|
  {
    s.(receivers := RemoveAt(s.receivers, i),
       lost := s.lost + s.receivers[i].queue,
       phase := s.phase.(gone := s.phase.gone + {s.receivers[i].pattern}))
  }

  function Missed(rs: seq<Receiver>, raw: seq<string>): set<string> {
    set p | p in Covering.Reduced(raw) && p !in Patterns(rs)
  }

  function Next(s: Pump, t: Step): Pump {
    if !Enabled(s, t) then s
    else
      match t
      case Publish(event) => Published(s, event)
      case Begin(reload) => s.(phase := Draining(Below(|s.receivers|), reload), mark := s.published)
      case Drain(i) =>
        s.(batch := s.batch + s.receivers[i].queue,
           receivers := s.receivers[i := s.receivers[i].(queue := [])],
           phase := s.phase.(todo := s.phase.todo - {i}))
      case SortUp => s.(batch := Sorted(s.batch), phase := Dispatching(s.phase.reload))
      case DispatchNext => s.(batch := s.batch[1..], dispatched := s.dispatched + [s.batch[0]])
      case BeginDrop => s.(phase := Dropping(s.phase.reload.value, {}))
      case Drop(i) => Dropped(s, i)
      case BeginOpen => s.(inForce := s.phase.raw, phase := Opening(Missed(s.receivers, s.phase.raw)))
      case Open(p) =>
        s.(receivers := s.receivers + [Receiver(p, [])], phase := Opening(s.phase.unopened - {p}))
      case Finish => s.(phase := Idle)
  }

  function RunOf(steps: seq<Step>): Pump {
    if steps == [] then START else Next(RunOf(steps[..|steps| - 1]), steps[|steps| - 1])
  }

  // ----- at most one receiver takes an event -----

  function Matching(kind: string): Receiver -> bool {
    (r: Receiver) => Glob.PatternMatches(r.pattern, kind)
  }

  function Takes(rs: seq<Receiver>, kind: string): nat {
    Count(rs, Matching(kind))
  }

  ghost predicate DistinctPatterns(rs: seq<Receiver>) {
    forall i, j :: 0 <= i < j < |rs| ==> rs[i].pattern != rs[j].pattern
  }

  /** The receivers, with those in the gap, are those of the patterns in force, each once. */
  ghost predicate Covers(rs: seq<Receiver>, raw: seq<string>, gap: set<string>) {
    && DistinctPatterns(rs)
    && (forall r :: r in rs ==> r.pattern in Covering.Reduced(raw) && r.pattern !in gap)
    && (forall p :: p in gap ==> p in Covering.Reduced(raw))
    && (forall p :: p in Covering.Reduced(raw) ==> p in gap || exists r :: r in rs && r.pattern == p)
  }

  ghost predicate Covered(s: Pump) {
    Covers(s.receivers, s.inForce, Gap(s.phase))
  }

  lemma TakesOne(rs: seq<Receiver>, kind: string, i: nat)
    requires i < |rs| && Glob.PatternMatches(rs[i].pattern, kind)
    requires forall j :: 0 <= j < |rs| && j != i ==> !Glob.PatternMatches(rs[j].pattern, kind)
    ensures Takes(rs, kind) == 1
  {
    CountRemoveAt(rs, i, Matching(kind));
    CountZero(RemoveAt(rs, i), Matching(kind));
  }

  lemma OpenTakesOne(rs: seq<Receiver>, raw: seq<string>, gap: set<string>, kind: string, i: nat)
    requires Covers(rs, raw, gap) && i < |rs| && Glob.PatternMatches(rs[i].pattern, kind)
    ensures Takes(rs, kind) == 1
  {
    assert rs[i] in rs;
    forall j | 0 <= j < |rs| && Glob.PatternMatches(rs[j].pattern, kind)
      ensures j == i
    {
      assert rs[j] in rs;
      Covering.AtMostOneMatches(raw, rs[i].pattern, rs[j].pattern, kind);
    }
    TakesOne(rs, kind, i);
  }

  lemma NoneTakes(rs: seq<Receiver>, kind: string)
    requires forall r :: r in rs ==> !Glob.PatternMatches(r.pattern, kind)
    ensures Takes(rs, kind) == 0
  {
    CountZero(rs, Matching(kind));
  }

  /** An event the patterns in force match reaches exactly one receiver, or falls to exactly one
      pattern without a receiver at the moment; any other reaches none. */
  lemma ExactlyOneTakes(s: Pump, kind: string)
    requires Covered(s)
    ensures Takes(s.receivers, kind) + (if FallsInGap(s, kind) then 1 else 0)
            == if Glob.AnyMatches(s.inForce, kind) then 1 else 0
  {
    var rs, raw, gap := s.receivers, s.inForce, Gap(s.phase);
    Covering.SameKinds(raw, kind);
    if Glob.AnyMatches(raw, kind) {
      var p :| p in Covering.Reduced(raw) && Glob.PatternMatches(p, kind);
      if p in gap {
        forall r | r in rs
          ensures !Glob.PatternMatches(r.pattern, kind)
        {
          if Glob.PatternMatches(r.pattern, kind) {
            Covering.AtMostOneMatches(raw, p, r.pattern, kind);
          }
        }
        NoneTakes(rs, kind);
      } else {
        var r :| r in rs && r.pattern == p;
        var i :| 0 <= i < |rs| && rs[i] == r;
        OpenTakesOne(rs, raw, gap, kind, i);
        forall q | q in gap
          ensures !Glob.PatternMatches(q, kind)
        {
          if Glob.PatternMatches(q, kind) {
            Covering.AtMostOneMatches(raw, p, q, kind);
          }
        }
      }
    } else {
      assert !Glob.AnyMatches(Covering.Reduced(raw), kind);
      NoneTakes(rs, kind);
    }
  }

  lemma {:induction false} DeliveredCount(rs: seq<Receiver>, item: Item, id: nat)
    ensures Count(Flatten(Delivered(rs, item)), ItemId(id))
            == Count(Flatten(rs), ItemId(id)) + if item.id == id then Takes(rs, item.event.kind) else 0
  {
    if rs == [] {
    } else {
      DeliveredCount(rs[1..], item, id);
      var first := Delivered(rs, item)[0];
      assert Delivered(rs, item)[1..] == Delivered(rs[1..], item);
      CountConcat(rs[0].queue, Flatten(rs[1..]), ItemId(id));
      CountConcat(first.queue, Flatten(Delivered(rs[1..], item)), ItemId(id));
      CountSnoc(rs[0].queue, item, ItemId(id));
    }
  }

  // ----- conservation -----

  function Places(s: Pump, id: nat): nat {
    Count(Flatten(s.receivers), ItemId(id)) + Count(s.batch, ItemId(id))
    + Count(s.dispatched, ItemId(id)) + Count(s.lost, ItemId(id))
  }

  predicate Conserved(s: Pump, id: nat) {
    Places(s, id) == Count(s.offered, ItemId(id)) <= (if id < s.published then 1 else 0)
  }

  lemma {:induction false} FlattenConcat(a: seq<Receiver>, b: seq<Receiver>)
    ensures Flatten(a + b) == Flatten(a) + Flatten(b)
  {
    if a == [] {
      assert a + b == b;
    } else {
      ConcatTail(a, b);
      FlattenConcat(a[1..], b);
    }
  }

  lemma {:induction false} FlattenAt(rs: seq<Receiver>, i: nat, id: nat)
    requires i < |rs|
    ensures var emptied := rs[i := rs[i].(queue := [])];
            Count(Flatten(rs), ItemId(id)) == Count(Flatten(emptied), ItemId(id)) + Count(rs[i].queue, ItemId(id))
  {
    var emptied := rs[i := rs[i].(queue := [])];
    CountConcat(rs[0].queue, Flatten(rs[1..]), ItemId(id));
    CountConcat(emptied[0].queue, Flatten(emptied[1..]), ItemId(id));
    if i > 0 {
      assert emptied[1..] == rs[1..][i - 1 := rs[i].(queue := [])];
      FlattenAt(rs[1..], i - 1, id);
    } else {
      assert emptied[1..] == rs[1..];
    }
  }

  lemma FlattenRemove(rs: seq<Receiver>, i: nat, id: nat)
    requires i < |rs|
    ensures Count(Flatten(rs), ItemId(id))
            == Count(Flatten(RemoveAt(rs, i)), ItemId(id)) + Count(rs[i].queue, ItemId(id))
  {
    AroundAt(rs, i);
    var a, b := rs[..i], rs[i + 1..];
    FlattenConcat(a, [rs[i]] + b);
    ConcatAssoc(a, [rs[i]], b);
    FlattenConcat(a, b);
    assert Flatten([rs[i]] + b) == rs[i].queue + Flatten(b) by {
      assert ([rs[i]] + b)[1..] == b;
    }
    CountConcat(Flatten(a), rs[i].queue + Flatten(b), ItemId(id));
    CountConcat(rs[i].queue, Flatten(b), ItemId(id));
    CountConcat(Flatten(a), Flatten(b), ItemId(id));
  }

  lemma PublishConserves(s: Pump, event: Event, id: nat)
    requires Conserved(s, id) && Covered(s)
    ensures Conserved(Published(s, event), id)
  {
    var item := Item(s.published, event);
    DeliveredCount(s.receivers, item, id);
    ExactlyOneTakes(s, event.kind);
    CountConcat(s.offered, if Glob.AnyMatches(s.inForce, event.kind) then [item] else [], ItemId(id));
    CountConcat(s.lost, if FallsInGap(s, event.kind) then [item] else [], ItemId(id));
  }

  lemma OpenConserves(s: Pump, p: string, id: nat)
    ensures Count(Flatten(s.receivers + [Receiver(p, [])]), ItemId(id)) == Count(Flatten(s.receivers), ItemId(id))
  {
    FlattenConcat(s.receivers, [Receiver(p, [])]);
    assert Flatten([Receiver(p, [])]) == [];
    assert Flatten(s.receivers) + [] == Flatten(s.receivers);
  }

  lemma DrainConserves(s: Pump, i: nat, id: nat)
    requires Conserved(s, id) && Enabled(s, Drain(i))
    ensures Conserved(Next(s, Drain(i)), id)
  {
    FlattenAt(s.receivers, i, id);
    CountConcat(s.batch, s.receivers[i].queue, ItemId(id));
  }

  lemma DropConserves(s: Pump, i: nat, id: nat)
    requires Conserved(s, id) && Enabled(s, Drop(i))
    ensures Conserved(Next(s, Drop(i)), id)
  {
    FlattenRemove(s.receivers, i, id);
    CountConcat(s.lost, s.receivers[i].queue, ItemId(id));
  }

  lemma NextConserves(s: Pump, t: Step, id: nat)
    requires Conserved(s, id) && Covered(s)
    ensures Conserved(Next(s, t), id)
  {
    if Enabled(s, t) {
      match t
      case Publish(event) => PublishConserves(s, event, id);
      case Begin(_) =>
      case Drain(i) => DrainConserves(s, i, id);
      case SortUp => SortedKeepsItems(s.batch, id);
      case DispatchNext => CountSnoc(s.dispatched, s.batch[0], ItemId(id));
      case BeginDrop =>
      case Drop(i) => DropConserves(s, i, id);
      case BeginOpen =>
      case Open(p) => OpenConserves(s, p, id);
      case Finish =>
    }
  }

  lemma PatternAppears(rs: seq<Receiver>, p: string)
    ensures p in Patterns(rs) <==> exists r :: r in rs && r.pattern == p
  {
    if p in Patterns(rs) {
      var k :| 0 <= k < |rs| && Patterns(rs)[k] == p;
      assert rs[k] in rs;
    }
    forall r | r in rs && r.pattern == p
      ensures p in Patterns(rs)
    {
      var k :| 0 <= k < |rs| && rs[k] == r;
      assert Patterns(rs)[k] == p;
    }
  }

  lemma RemainsDistinct(rs: seq<Receiver>, i: nat)
    requires DistinctPatterns(rs) && i < |rs|
    ensures DistinctPatterns(RemoveAt(rs, i))
  {
    var after := RemoveAt(rs, i);
    forall j, k | 0 <= j < k < |after|
      ensures after[j].pattern != after[k].pattern
    {
      assert after[j] == rs[if j < i then j else j + 1];
      assert after[k] == rs[if k < i then k else k + 1];
    }
  }

  lemma RemainsOther(rs: seq<Receiver>, i: nat, r: Receiver)
    requires DistinctPatterns(rs) && i < |rs|
    ensures r in RemoveAt(rs, i) <==> r in rs && r.pattern != rs[i].pattern
  {
    var after := RemoveAt(rs, i);
    if r in after {
      var j :| 0 <= j < |after| && after[j] == r;
      assert r == rs[if j < i then j else j + 1];
    }
    if r in rs && r.pattern != rs[i].pattern {
      var j :| 0 <= j < |rs| && rs[j] == r;
      assert after[if j < i then j else j - 1] == r;
    }
  }

  lemma DropCovers(rs: seq<Receiver>, raw: seq<string>, gone: set<string>, i: nat)
    requires Covers(rs, raw, gone) && i < |rs|
    ensures Covers(RemoveAt(rs, i), raw, gone + {rs[i].pattern})
  {
    RemainsDistinct(rs, i);
    assert rs[i] in rs;
    forall r | r in RemoveAt(rs, i)
      ensures r in rs && r.pattern != rs[i].pattern
    {
      RemainsOther(rs, i, r);
    }
    forall p | p in Covering.Reduced(raw) && p !in gone + {rs[i].pattern}
      ensures exists r :: r in RemoveAt(rs, i) && r.pattern == p
    {
      var r :| r in rs && r.pattern == p;
      RemainsOther(rs, i, r);
    }
  }

  lemma NeededCovers(rs: seq<Receiver>, raw: seq<string>)
    requires DistinctPatterns(rs)
    requires forall i :: 0 <= i < |rs| ==> rs[i].pattern in Covering.Reduced(raw)
    ensures Covers(rs, raw, Missed(rs, raw))
  {
    forall r | r in rs
      ensures r.pattern in Patterns(rs)
    {
      PatternAppears(rs, r.pattern);
    }
    forall p | p in Covering.Reduced(raw) && p in Patterns(rs)
      ensures exists r :: r in rs && r.pattern == p
    {
      PatternAppears(rs, p);
    }
  }

  lemma OpenCovers(rs: seq<Receiver>, raw: seq<string>, gap: set<string>, p: string)
    requires Covers(rs, raw, gap) && p in gap
    ensures Covers(rs + [Receiver(p, [])], raw, gap - {p})
  {
    var after := rs + [Receiver(p, [])];
    forall i, j | 0 <= i < j < |after|
      ensures after[i].pattern != after[j].pattern
    {
      assert after[i] in rs;
    }
    forall q | q in Covering.Reduced(raw) && q !in gap - {p}
      ensures exists r :: r in after && r.pattern == q
    {
      if q == p {
        assert after[|rs|] == Receiver(p, []);
      } else {
        var r :| r in rs && r.pattern == q;
        assert r in after;
      }
    }
  }

  // ----- what every step keeps -----

  ghost predicate Newer(r: Receiver, mark: nat) {
    forall x :: x in r.queue ==> x.id >= mark
  }

  /** A receiver that was drained since the last pump began holds only events published since. */
  ghost predicate Timely(s: Pump) {
    && s.mark <= s.published
    && (!s.phase.Draining? && !s.phase.Dispatching? ==> s.batch == [])
    && forall i: nat :: i < |s.receivers| && !(s.phase.Draining? && i in s.phase.todo) ==> Newer(s.receivers[i], s.mark)
  }

  ghost predicate Sound(s: Pump) {
    Covered(s) && Timely(s) && forall id: nat :: Conserved(s, id)
  }

  lemma NextTimely(s: Pump, t: Step)
    requires Timely(s)
    ensures Timely(Next(s, t))
  {
  }

  lemma SamePatternsCover(rs: seq<Receiver>, after: seq<Receiver>, raw: seq<string>, gap: set<string>)
    requires Covers(rs, raw, gap)
    requires |after| == |rs| && forall i :: 0 <= i < |rs| ==> after[i].pattern == rs[i].pattern
    ensures Covers(after, raw, gap)
  {
    forall r | r in after
      ensures r.pattern in Covering.Reduced(raw) && r.pattern !in gap
    {
      var i :| 0 <= i < |after| && after[i] == r;
      assert rs[i] in rs;
    }
    forall p | p in Covering.Reduced(raw) && p !in gap
      ensures exists r :: r in after && r.pattern == p
    {
      var r :| r in rs && r.pattern == p;
      var i :| 0 <= i < |rs| && rs[i] == r;
      assert after[i] in after;
    }
  }

  lemma PublishCovers(s: Pump, event: Event)
    requires Covered(s)
    ensures Covered(Published(s, event))
  {
    SamePatternsCover(s.receivers, Published(s, event).receivers, s.inForce, Gap(s.phase));
  }

  lemma DrainCovers(s: Pump, i: nat)
    requires Covered(s) && Enabled(s, Drain(i))
    ensures Covered(Next(s, Drain(i)))
  {
    SamePatternsCover(s.receivers, Next(s, Drain(i)).receivers, s.inForce, {});
  }

  lemma DropCovered(s: Pump, i: nat)
    requires Covered(s) && Enabled(s, Drop(i))
    ensures Covered(Dropped(s, i))
  {
    DropCovers(s.receivers, s.inForce, s.phase.gone, i);
  }

  lemma BeginOpenCovered(s: Pump)
    requires DistinctPatterns(s.receivers) && Enabled(s, BeginOpen)
    ensures Covered(Next(s, BeginOpen))
  {
    NeededCovers(s.receivers, s.phase.raw);
    assert Gap(Next(s, BeginOpen).phase) == Missed(s.receivers, s.phase.raw);
  }

  lemma OpenCovered(s: Pump, p: string)
    requires Covered(s) && Enabled(s, Open(p))
    ensures Covered(Next(s, Open(p)))
  {
    OpenCovers(s.receivers, s.inForce, s.phase.unopened, p);
  }

  lemma NextCovers(s: Pump, t: Step)
    requires Covered(s)
    ensures Covered(Next(s, t))
  {
    if Enabled(s, t) {
      match t
      case Publish(event) => PublishCovers(s, event);
      case Drain(i) => DrainCovers(s, i);
      case Drop(i) => DropCovered(s, i);
      case BeginOpen => BeginOpenCovered(s);
      case Open(p) => OpenCovered(s, p);
      case _ => assert Gap(Next(s, t).phase) == Gap(s.phase);
    }
  }

  lemma {:induction false} AlwaysSound(steps: seq<Step>)
    ensures Sound(RunOf(steps))
  {
    if steps == [] {
    } else {
      var s, t := RunOf(steps[..|steps| - 1]), steps[|steps| - 1];
      AlwaysSound(steps[..|steps| - 1]);
      NextCovers(s, t);
      NextTimely(s, t);
      forall id: nat
        ensures Conserved(Next(s, t), id)
      {
        NextConserves(s, t, id);
      }
    }
  }

  // ----- completions go first -----

  ghost predicate CompletionsLead(batch: seq<Item>) {
    forall i, j :: 0 <= i < j < |batch| && IsCompletion(batch[j].event) ==> IsCompletion(batch[i].event)
  }

  lemma SortedLeads(batch: seq<Item>)
    ensures CompletionsLead(Sorted(batch))
  {
    forall i, j | 0 <= i < j < |Sorted(batch)| && IsCompletion(Sorted(batch)[j].event)
      ensures IsCompletion(Sorted(batch)[i].event)
    {
      CompletionsFirst(batch, i, j);
    }
  }

  lemma NextLeads(s: Pump, t: Step)
    requires s.phase.Dispatching? ==> CompletionsLead(s.batch)
    ensures Next(s, t).phase.Dispatching? ==> CompletionsLead(Next(s, t).batch)
  {
    if Enabled(s, t) && t.SortUp? {
      SortedLeads(s.batch);
    }
  }

  lemma {:induction false} AlwaysLeads(steps: seq<Step>)
    ensures RunOf(steps).phase.Dispatching? ==> CompletionsLead(RunOf(steps).batch)
  {
    if steps == [] {
    } else {
      AlwaysLeads(steps[..|steps| - 1]);
      NextLeads(RunOf(steps[..|steps| - 1]), steps[|steps| - 1]);
    }
  }

  /** In every run, while a pump still has the completion or the failure of some action to dispatch, the
      event it dispatches next is one as well. */
  lemma CompletionsGoFirst(steps: seq<Step>, item: Item, action: string)
    requires RunOf(steps).phase.Dispatching? && item in RunOf(steps).batch
    requires item.event.source == "copad.action"
    requires item.event.kind == action + ".completed" || item.event.kind == action + ".failed"
    ensures var next := RunOf(steps).batch[0].event;
            next.source == "copad.action"
            && exists other: string :: next.kind == other + ".completed" || next.kind == other + ".failed"
  {
    AlwaysLeads(steps);
    var batch := RunOf(steps).batch;
    var j :| 0 <= j < |batch| && batch[j] == item;
    CompletionExactly(item.event);
    CompletionExactly(batch[0].event);
  }

  // ----- the results -----

  /** In every run, at every moment, an event is dispatched or lost at most once, and only if the
      patterns in force when it was published matched it. */
  lemma AtMostOnce(steps: seq<Step>, id: nat)
    ensures var s := RunOf(steps);
            Count(s.dispatched, ItemId(id)) + Count(s.lost, ItemId(id)) <= Count(s.offered, ItemId(id)) <= 1
  {
    AlwaysSound(steps);
    assert Conserved(RunOf(steps), id);
  }

  lemma {:induction false} QueuedIsFlattened(rs: seq<Receiver>, i: nat, x: Item)
    requires i < |rs| && x in rs[i].queue
    ensures x in Flatten(rs)
  {
    if i == 0 {
    } else {
      QueuedIsFlattened(rs[1..], i - 1, x);
    }
  }

  lemma {:induction false} FlattenedIsQueued(rs: seq<Receiver>, x: Item) returns (i: nat)
    requires x in Flatten(rs)
    ensures i < |rs| && x in rs[i].queue
  {
    if x in rs[0].queue {
      i := 0;
    } else {
      i := FlattenedIsQueued(rs[1..], x);
      i := i + 1;
    }
  }

  lemma NoneQueued(rs: seq<Receiver>, mark: nat, id: nat)
    requires id < mark && forall i :: 0 <= i < |rs| ==> Newer(rs[i], mark)
    ensures Count(Flatten(rs), ItemId(id)) == 0
  {
    forall x | x in Flatten(rs)
      ensures x.id != id
    {
      var i := FlattenedIsQueued(rs, x);
    }
    CountZero(Flatten(rs), ItemId(id));
  }

  /** Once a pump or reload is over, every event published before it began is accounted for: it was
      dispatched once or lost once if it was wanted, and neither if it was not. */
  lemma PumpedIsSettled(steps: seq<Step>, id: nat)
    requires RunOf(steps).phase.Idle? && id < RunOf(steps).mark
    ensures var s := RunOf(steps);
            Count(s.dispatched, ItemId(id)) + Count(s.lost, ItemId(id)) == Count(s.offered, ItemId(id))
  {
    var s := RunOf(steps);
    AlwaysSound(steps);
    NoneQueued(s.receivers, s.mark, id);
    assert Conserved(s, id);
  }

  /** What a publication loses: itself, exactly when the patterns in force match it and no open
      receiver does; and that happens only between a reload's first drop and its last subscription. */
  lemma PublishLoses(steps: seq<Step>, event: Event)
    ensures var s := RunOf(steps);
            var missed := Glob.AnyMatches(s.inForce, event.kind)
                          && forall r :: r in s.receivers ==> !Glob.PatternMatches(r.pattern, event.kind);
            && RunOf(steps + [Publish(event)]).lost == s.lost + (if missed then [Item(s.published, event)] else [])
            && (missed ==> Gap(s.phase) != {})
  {
    var s := RunOf(steps);
    var after := RunSnoc(steps, Publish(event));
    AlwaysSound(steps);
    ExactlyOneTakes(s, event.kind);
    CountZero(s.receivers, Matching(event.kind));
    assert Takes(s.receivers, event.kind) == 0 <==>
           forall r :: r in s.receivers ==> !Matching(event.kind)(r);
  }

  lemma OfferedGrows(s: Pump, t: Step, id: nat)
    ensures Count(s.offered, ItemId(id)) <= Count(Next(s, t).offered, ItemId(id))
  {
    if t.Publish? {
      CountConcat(s.offered, [Item(s.published, t.event)], ItemId(id));
      AppendNothing(s.offered);
    }
  }

  lemma {:induction false} OfferedStays(before: seq<Step>, after: seq<Step>, id: nat)
    ensures Count(RunOf(before).offered, ItemId(id)) <= Count(RunOf(before + after).offered, ItemId(id))
  {
    if after == [] {
      assert before + after == before;
    } else {
      var shorter, t := after[..|after| - 1], after[|after| - 1];
      OfferedStays(before, shorter, id);
      assert (before + after)[..|before + after| - 1] == before + shorter;
      OfferedGrows(RunOf(before + shorter), t, id);
    }
  }

  lemma RunSnoc(steps: seq<Step>, t: Step) returns (s: Pump)
    ensures s == RunOf(steps + [t]) == Next(RunOf(steps), t)
  {
    s := RunOf(steps + [t]);
    assert (steps + [t])[..|steps|] == steps;
  }

  // ----- the fate of an event -----

  /** The reload under way will drop receiver `i` without draining it again. */
  predicate Hazardous(s: Pump, i: nat)
    requires i < |s.receivers|
  {
    match s.phase
    case Draining(todo, Some(raw)) => i !in todo && s.receivers[i].pattern !in Covering.Reduced(raw)
    case Dispatching(Some(raw)) => s.receivers[i].pattern !in Covering.Reduced(raw)
    case Dropping(raw, _) => s.receivers[i].pattern !in Covering.Reduced(raw)
    case _ => false
  }

  /** An event of this kind published now will be lost: no receiver takes it, or one that is about
      to be dropped. */
  ghost predicate Doomed(s: Pump, kind: string) {
    FallsInGap(s, kind)
    || exists i: nat ::
         i < |s.receivers| && Glob.PatternMatches(s.receivers[i].pattern, kind) && Hazardous(s, i)
  }

  predicate Holds(q: seq<Item>, id: nat) {
    exists x :: x in q && x.id == id
  }

  ghost predicate InHazard(s: Pump, id: nat) {
    exists i: nat :: i < |s.receivers| && Hazardous(s, i) && Holds(s.receivers[i].queue, id)
  }

  /** The event is lost, or stands where it will be. */
  ghost predicate Endangered(s: Pump, id: nat) {
    Holds(s.lost, id) || InHazard(s, id)
  }

  lemma HoldsConcat(a: seq<Item>, b: seq<Item>, id: nat)
    ensures Holds(a + b, id) <==> Holds(a, id) || Holds(b, id)
  {
    forall x
      ensures x in a + b <==> x in a || x in b
    {
    }
  }

  lemma HoldsCounts(q: seq<Item>, id: nat)
    ensures Holds(q, id) <==> Count(q, ItemId(id)) > 0
  {
    CountZero(q, ItemId(id));
    forall x | x in q
      ensures ItemId(id)(x) <==> x.id == id
    {
    }
  }

  /** Publishing another event changes nobody's fate. */
  lemma PublishKeepsFate(s: Pump, event: Event, id: nat)
    requires id < s.published
    ensures Endangered(Published(s, event), id) <==> Endangered(s, id)
  {
    var after, item := Published(s, event), Item(s.published, event);
    HoldsConcat(s.lost, if FallsInGap(s, event.kind) then [item] else [], id);
    forall i: nat | i < |s.receivers|
      ensures Hazardous(after, i) <==> Hazardous(s, i)
      ensures Holds(after.receivers[i].queue, id) <==> Holds(s.receivers[i].queue, id)
    {
      HoldsConcat(s.receivers[i].queue, [item], id);
    }
  }

  /** Draining a receiver empties it before it can be a hazard. */
  lemma DrainKeepsFate(s: Pump, i: nat, id: nat)
    requires Enabled(s, Drain(i))
    ensures Endangered(Next(s, Drain(i)), id) <==> Endangered(s, id)
  {
    var after := Next(s, Drain(i));
    forall j: nat | j < |s.receivers|
      ensures Hazardous(after, j) && Holds(after.receivers[j].queue, id)
              <==> Hazardous(s, j) && Holds(s.receivers[j].queue, id)
    {
    }
  }

  lemma HazardRemains(s: Pump, i: nat, id: nat)
    requires Enabled(s, Drop(i)) && InHazard(s, id) && !Holds(s.receivers[i].queue, id)
    ensures InHazard(Dropped(s, i), id)
  {
    var after := Dropped(s, i);
    var j: nat :| j < |s.receivers| && Hazardous(s, j) && Holds(s.receivers[j].queue, id);
    var k := if j < i then j else j - 1;
    RemovedAt(s.receivers, i, k);
    assert Hazardous(after, k);
  }

  lemma HazardWasThere(s: Pump, i: nat, id: nat)
    requires Enabled(s, Drop(i)) && InHazard(Dropped(s, i), id)
    ensures InHazard(s, id)
  {
    var after := Dropped(s, i);
    var k: nat :| k < |after.receivers| && Hazardous(after, k) && Holds(after.receivers[k].queue, id);
    var j := if k < i then k else k + 1;
    RemovedAt(s.receivers, i, k);
    assert Hazardous(s, j);
  }

  /** Dropping a receiver loses what was endangered in it already. */
  lemma DropKeepsFate(s: Pump, i: nat, id: nat)
    requires Enabled(s, Drop(i))
    ensures Endangered(Dropped(s, i), id) <==> Endangered(s, id)
  {
    HoldsConcat(s.lost, s.receivers[i].queue, id);
    if Holds(s.receivers[i].queue, id) {
      assert Hazardous(s, i);
    } else if InHazard(s, id) {
      HazardRemains(s, i, id);
    } else if InHazard(Dropped(s, i), id) {
      HazardWasThere(s, i, id);
    }
  }

  /** Steps that touch neither the queues nor what is lost, and no hazard, change no fate. */
  lemma SameHazardsKeepFate(s: Pump, after: Pump, id: nat)
    requires after.receivers == s.receivers && after.lost == s.lost
    requires forall i: nat :: i < |s.receivers| ==> (Hazardous(after, i) <==> Hazardous(s, i))
    ensures Endangered(after, id) <==> Endangered(s, id)
  {
  }

  lemma OpenKeepsFate(s: Pump, p: string, id: nat)
    requires Enabled(s, Open(p))
    ensures Endangered(Next(s, Open(p)), id) <==> Endangered(s, id)
  {
  }

  /** Once an event is published, no step changes whether it is endangered. */
  lemma FateIsFixed(s: Pump, t: Step, id: nat)
    requires id < s.published
    ensures id < Next(s, t).published
    ensures Endangered(Next(s, t), id) <==> Endangered(s, id)
  {
    if Enabled(s, t) {
      match t
      case Publish(event) => PublishKeepsFate(s, event, id);
      case Drain(i) => DrainKeepsFate(s, i, id);
      case Drop(i) => DropKeepsFate(s, i, id);
      case Open(p) => OpenKeepsFate(s, p, id);
      case _ => SameHazardsKeepFate(s, Next(s, t), id);
    }
  }

  lemma NotYetAnywhere(s: Pump)
    requires Sound(s)
    ensures !Holds(s.lost, s.published)
    ensures forall i :: 0 <= i < |s.receivers| ==> !Holds(s.receivers[i].queue, s.published)
  {
    var id := s.published;
    assert Conserved(s, id);
    HoldsCounts(s.lost, id);
    HoldsCounts(Flatten(s.receivers), id);
    forall i | 0 <= i < |s.receivers|
      ensures !Holds(s.receivers[i].queue, id)
    {
      if Holds(s.receivers[i].queue, id) {
        var x :| x in s.receivers[i].queue && x.id == id;
        QueuedIsFlattened(s.receivers, i, x);
      }
    }
  }

  /** A publication is endangered exactly when its kind was doomed. */
  lemma FateAtPublication(s: Pump, event: Event)
    requires Sound(s)
    ensures Endangered(Published(s, event), s.published) <==> Doomed(s, event.kind)
  {
    var after, item := Published(s, event), Item(s.published, event);
    NotYetAnywhere(s);
    HoldsConcat(s.lost, if FallsInGap(s, event.kind) then [item] else [], item.id);
    assert item in [item];
    forall i: nat | i < |s.receivers|
      ensures Hazardous(after, i) <==> Hazardous(s, i)
      ensures Holds(after.receivers[i].queue, item.id) <==> Glob.PatternMatches(s.receivers[i].pattern, event.kind)
    {
      HoldsConcat(s.receivers[i].queue, [item], item.id);
    }
  }

  lemma {:induction false} FateOverRuns(before: seq<Step>, event: Event, after: seq<Step>)
    ensures RunOf(before).published < RunOf(before + [Publish(event)] + after).published
    ensures Endangered(RunOf(before + [Publish(event)] + after), RunOf(before).published)
            <==> Doomed(RunOf(before), event.kind)
  {
    var start := before + [Publish(event)];
    if after == [] {
      AlwaysSound(before);
      FateAtPublication(RunOf(before), event);
      var s := RunSnoc(before, Publish(event));
      assert start + after == start;
    } else {
      var shorter, t := after[..|after| - 1], after[|after| - 1];
      FateOverRuns(before, event, shorter);
      var s := RunSnoc(start + shorter, t);
      assert start + after == start + shorter + [t];
      FateIsFixed(RunOf(start + shorter), t, RunOf(before).published);
    }
  }

  /** At every later moment: an event doomed when it was published has not been dispatched, and any
      other has not been lost. */
  lemma DoomDecides(before: seq<Step>, event: Event, after: seq<Step>)
    ensures var s, id := RunOf(before + [Publish(event)] + after), RunOf(before).published;
            if Doomed(RunOf(before), event.kind) then Count(s.dispatched, ItemId(id)) == 0
            else Count(s.lost, ItemId(id)) == 0
  {
    var s, id := RunOf(before + [Publish(event)] + after), RunOf(before).published;
    FateOverRuns(before, event, after);
    HoldsCounts(s.lost, id);
    if InHazard(s, id) {
      AlwaysSound(before + [Publish(event)] + after);
      assert Conserved(s, id);
      HazardIsQueued(s, id);
    } else if Holds(s.lost, id) {
      AtMostOnce(before + [Publish(event)] + after, id);
    }
  }

  lemma HazardIsQueued(s: Pump, id: nat)
    requires InHazard(s, id)
    ensures Count(Flatten(s.receivers), ItemId(id)) > 0
  {
    var i: nat :| i < |s.receivers| && Hazardous(s, i) && Holds(s.receivers[i].queue, id);
    var x :| x in s.receivers[i].queue && x.id == id;
    QueuedIsFlattened(s.receivers, i, x);
    HoldsCounts(Flatten(s.receivers), id);
  }

  /** Main result. Take any run, any event that the patterns in force match when it is published,
      and any moment at which a pump or reload that began later is over. The event has been
      dispatched exactly once if and only if it was not doomed when it was published; if it was, it
      has been lost. */
  lemma ExactlyOnce(before: seq<Step>, event: Event, after: seq<Step>)
    requires Glob.AnyMatches(RunOf(before).inForce, event.kind)
    requires RunOf(before + [Publish(event)] + after).phase.Idle?
    requires RunOf(before + [Publish(event)] + after).mark > RunOf(before).published
    ensures var s, id := RunOf(before + [Publish(event)] + after), RunOf(before).published;
            && (Count(s.dispatched, ItemId(id)) == 1 <==> !Doomed(RunOf(before), event.kind))
            && (Count(s.lost, ItemId(id)) == 1 <==> Doomed(RunOf(before), event.kind))
  {
    var steps, id := before + [Publish(event)] + after, RunOf(before).published;
    OfferedOnce(before, event, after);
    DoomDecides(before, event, after);
    PumpedIsSettled(steps, id);
  }

  lemma OfferedOnce(before: seq<Step>, event: Event, after: seq<Step>)
    requires Glob.AnyMatches(RunOf(before).inForce, event.kind)
    ensures Count(RunOf(before + [Publish(event)] + after).offered, ItemId(RunOf(before).published)) == 1
  {
    var s := RunOf(before);
    var published := RunSnoc(before, Publish(event));
    CountSnoc(s.offered, Item(s.published, event), ItemId(s.published));
    OfferedStays(before + [Publish(event)], after, s.published);
    AtMostOnce(before + [Publish(event)] + after, s.published);
  }

  /** From the beginning of a reload's pump until its last receiver is open. */
  predicate InReload(s: Pump) {
    s.phase.Dropping? || s.phase.Opening?
    || ((s.phase.Draining? || s.phase.Dispatching?) && s.phase.reload.Some?)
  }

  /** So an event published while no reload is under way is never lost, whatever follows. */
  lemma ExactlyOnceOutsideReloads(before: seq<Step>, event: Event, after: seq<Step>)
    requires !InReload(RunOf(before)) && Glob.AnyMatches(RunOf(before).inForce, event.kind)
    requires RunOf(before + [Publish(event)] + after).phase.Idle?
    requires RunOf(before + [Publish(event)] + after).mark > RunOf(before).published
    ensures Count(RunOf(before + [Publish(event)] + after).dispatched, ItemId(RunOf(before).published)) == 1
  {
    ExactlyOnce(before, event, after);
  }

  // ----- the class's reconcile, step by step -----

  function Continue(s: Pump, steps: seq<Step>): Pump
    decreases |steps|
  {
    if steps == [] then s else Continue(Next(s, steps[0]), steps[1..])
  }

  function OpenAll(patterns: seq<string>): seq<Step> {
    seq(|patterns|, i requires 0 <= i < |patterns| => Open(patterns[i]))
  }

  lemma {:induction false} OpensInTurn(s: Pump, patterns: seq<string>)
    requires s.phase.Opening? && s.phase.unopened == (set p | p in patterns) && Distinct(patterns)
    ensures Continue(s, OpenAll(patterns)) == s.(receivers := s.receivers + Opened(patterns), phase := Opening({}))
    decreases |patterns|
  {
    if patterns == [] {
      assert s.receivers + [] == s.receivers;
    } else {
      var next := Next(s, Open(patterns[0]));
      assert OpenAll(patterns)[1..] == OpenAll(patterns[1..]);
      assert next.phase.unopened == set p | p in patterns[1..];
      OpensInTurn(next, patterns[1..]);
      assert s.receivers + [Receiver(patterns[0], [])] + Opened(patterns[1..]) == s.receivers + Opened(patterns);
    }
  }

  /** A drop takes nothing that is needed. */
  lemma DropKeepsNeeded(rs: seq<Receiver>, i: nat, needed: seq<string>)
    requires i < |rs| && rs[i].pattern !in needed
    ensures Filter(RemoveAt(rs, i), Needed(needed)) == Filter(rs, Needed(needed))
  {
    AroundAt(rs, i);
    FilterAround(rs, rs[..i], rs[i], rs[i + 1..], Needed(needed));
  }

  lemma {:induction false} DropsKeepNeeded(s: Pump, drops: seq<Step>, raw: seq<string>)
    requires s.phase.Dropping? && s.phase.raw == raw && forall t :: t in drops ==> t.Drop?
    ensures var after := Continue(s, drops);
            && after.phase.Dropping? && after.phase.raw == raw
            && Filter(after.receivers, Needed(Covering.Reduced(raw)))
               == Filter(s.receivers, Needed(Covering.Reduced(raw)))
    decreases |drops|
  {
    if drops == [] {
    } else {
      assert drops[0] in drops;
      assert forall t :: t in drops[1..] ==> t in drops;
      if Enabled(s, drops[0]) {
        DropKeepsNeeded(s.receivers, drops[0].i, Covering.Reduced(raw));
      }
      DropsKeepNeeded(Next(s, drops[0]), drops[1..], raw);
    }
  }

  lemma NoneUnneeded(rs: seq<Receiver>, needed: seq<string>)
    requires forall i :: 0 <= i < |rs| ==> rs[i].pattern in needed
    ensures Filter(rs, Needed(needed)) == rs
  {
    forall r | r in rs
      ensures Needed(needed)(r)
    {
      var i :| 0 <= i < |rs| && rs[i] == r;
    }
    FilterAll(rs, Needed(needed));
  }

  lemma OpensMissing(s: Pump)
    requires Enabled(s, BeginOpen)
    ensures var needed := Covering.Reduced(s.phase.raw);
            var missing := Filter(needed, Missing(Patterns(s.receivers)));
            Continue(Next(s, BeginOpen), OpenAll(missing)).receivers == s.receivers + Opened(missing)
  {
    var needed := Covering.Reduced(s.phase.raw);
    var missing := Filter(needed, Missing(Patterns(s.receivers)));
    FilterMembers(needed, Missing(Patterns(s.receivers)));
    Covering.ReducedIncreasing(s.phase.raw);
    forall i, j | 0 <= i < j < |needed|
      ensures needed[i] != needed[j]
    {
      Covering.BeforeTotal(needed[i], needed[j]);
    }
    FilterDistinct(needed, Missing(Patterns(s.receivers)));
    var opening := Next(s, BeginOpen);
    forall p
      ensures p in opening.phase.unopened <==> p in missing
    {
      assert p in missing <==> p in needed && Missing(Patterns(s.receivers))(p);
    }
    OpensInTurn(opening, missing);
  }

  /** Dropping what is not needed, in whatever order, and then opening what is missing, undisturbed,
      leaves the receivers that `Reconcile` of the subscriptions object leaves. */
  lemma StepsReconcile(s: Pump, drops: seq<Step>)
    requires Enabled(s, BeginDrop) && forall t :: t in drops ==> t.Drop?
    requires Enabled(Continue(Next(s, BeginDrop), drops), BeginOpen)
    ensures var needed := Covering.Reduced(s.phase.reload.value);
            var missing := Filter(needed, Missing(Patterns(s.receivers)));
            Continue(Next(Continue(Next(s, BeginDrop), drops), BeginOpen), OpenAll(missing)).receivers
            == Reconciled(s.receivers, needed)
  {
    var raw := s.phase.reload.value;
    var needed := Covering.Reduced(raw);
    var dropped := Continue(Next(s, BeginDrop), drops);
    DropsKeepNeeded(Next(s, BeginDrop), drops, raw);
    NoneUnneeded(dropped.receivers, needed);
    OpensMissing(dropped);
    SameMissing(s.receivers, needed);
  }

  /** A needed pattern has a receiver before the drops exactly when it has one after. */
  lemma SameMissing(rs: seq<Receiver>, needed: seq<string>)
    ensures Filter(needed, Missing(Patterns(Filter(rs, Needed(needed))))) == Filter(needed, Missing(Patterns(rs)))
  {
    var kept := Filter(rs, Needed(needed));
    FilterMembers(rs, Needed(needed));
    forall p | p in needed
      ensures Missing(Patterns(kept))(p) == Missing(Patterns(rs))(p)
    {
      PatternAppears(rs, p);
      PatternAppears(kept, p);
      forall r | r in rs && r.pattern == p
        ensures r in kept
      {
        assert Needed(needed)(r);
      }
    }
    FilterSame(needed, Missing(Patterns(kept)), Missing(Patterns(rs)));
  }

  // ----- two ways to lose an event -----

  lemma {:induction false} RunContinues(before: seq<Step>, after: seq<Step>, all: seq<Step>)
    requires all == before + after
    ensures RunOf(all) == Continue(RunOf(before), after)
    decreases |after|
  {
    if after == [] {
      assert all == before;
    } else {
      var s := RunSnoc(before, after[0]);
      RunContinues(before + [after[0]], after[1..], all);
    }
  }

  lemma {:induction false} ContinueConcat(s: Pump, a: seq<Step>, b: seq<Step>)
    ensures Continue(s, a + b) == Continue(Continue(s, a), b)
    decreases |a|
  {
    if a == [] {
      assert a + b == b;
    } else {
      ConcatTail(a, b);
      ContinueConcat(Next(s, a[0]), a[1..], b);
    }
  }

  lemma TwoSteps(s: Pump, t: Step, u: Step)
    ensures Continue(s, [t, u]) == Next(Next(s, t), u)
  {
    assert [t, u][1..] == [u];
    assert Continue(Next(s, t), [u]) == Next(Next(s, t), u);
  }

  /** Opening the single receiver `pattern` from scratch. */
  function Load(pattern: string): seq<Step> {
    [Begin(Some([pattern])), SortUp] + [BeginDrop, BeginOpen] + [Open(pattern), Finish]
  }

  function Loaded(pattern: string): Pump {
    Pump([Receiver(pattern, [])], [pattern], Idle, [], 0, 0, [], [], [])
  }

  lemma ReducedOne(pattern: string)
    ensures Covering.Reduced([pattern]) == [pattern] && Covering.Reduced([]) == []
  {
    assert Covering.SortDedup([pattern]) == [pattern];
    assert !Covering.Covered([pattern], pattern);
  }

  lemma LoadBegins(pattern: string)
    ensures Continue(START, [Begin(Some([pattern])), SortUp]) == START.(phase := Dispatching(Some([pattern])))
  {
    TwoSteps(START, Begin(Some([pattern])), SortUp);
  }

  lemma LoadDropsNothing(pattern: string)
    ensures Continue(START.(phase := Dispatching(Some([pattern]))), [BeginDrop, BeginOpen])
            == START.(inForce := [pattern], phase := Opening({pattern}))
  {
    TwoSteps(START.(phase := Dispatching(Some([pattern]))), BeginDrop, BeginOpen);
    ReducedOne(pattern);
    assert Missed([], [pattern]) == {pattern};
  }

  lemma LoadOpens(pattern: string)
    ensures Continue(START.(inForce := [pattern], phase := Opening({pattern})), [Open(pattern), Finish])
            == Loaded(pattern)
  {
    TwoSteps(START.(inForce := [pattern], phase := Opening({pattern})), Open(pattern), Finish);
    assert [] + [Receiver(pattern, [])] == [Receiver(pattern, [])];
  }

  lemma LoadFromStart(pattern: string, more: seq<Step>)
    ensures RunOf(Load(pattern) + more) == Continue(Loaded(pattern), more)
  {
    var first, second, third := [Begin(Some([pattern])), SortUp], [BeginDrop, BeginOpen], [Open(pattern), Finish];
    RunContinues([], Load(pattern) + more, Load(pattern) + more);
    ContinueConcat(START, Load(pattern), more);
    ContinueConcat(START, first + second, third);
    ContinueConcat(START, first, second);
    LoadBegins(pattern);
    LoadDropsNothing(pattern);
    LoadOpens(pattern);
  }

  lemma DrainEmpty(pattern: string, reload: seq<string>)
    ensures Continue(Loaded(pattern), [Begin(Some(reload)), Drain(0)])
            == Loaded(pattern).(phase := Draining({}, Some(reload)))
  {
    TwoSteps(Loaded(pattern), Begin(Some(reload)), Drain(0));
    assert Below(1) == {0};
  }

  /** A run after which an event published by a sink of the reload's own pump is doomed: its receiver
      was drained and the new patterns drop it. */
  lemma PumpCanLose()
    ensures var s := RunOf(Load("a") + [Begin(Some([])), Drain(0)]);
            s.phase.Draining? && Glob.AnyMatches(s.inForce, "a") && Doomed(s, "a")
  {
    LoadFromStart("a", [Begin(Some([])), Drain(0)]);
    DrainEmpty("a", []);
    ReducedOne("a");
    var s := Loaded("a").(phase := Draining({}, Some([])));
    assert "a" in s.inForce && Hazardous(s, 0) && Glob.PatternMatches(s.receivers[0].pattern, "a");
  }

  /** A run after which an event is doomed although the old and the new patterns both match it: its
      old receiver is gone and its new one not open yet. */
  lemma GapCanLose()
    ensures var steps := Load("a.*") + ([Begin(Some(["*"])), Drain(0)] + ([SortUp, BeginDrop] + [Drop(0)]));
            var s := RunOf(steps);
            && s.phase == Dropping(["*"], {"a.*"}) && Doomed(s, "a.x")
            && Glob.AnyMatches(s.inForce, "a.x") && Glob.AnyMatches(["*"], "a.x")
  {
    var last := [SortUp, BeginDrop] + [Drop(0)];
    LoadFromStart("a.*", [Begin(Some(["*"])), Drain(0)] + last);
    ContinueConcat(Loaded("a.*"), [Begin(Some(["*"])), Drain(0)], last);
    DrainEmpty("a.*", ["*"]);
    var drained := Loaded("a.*").(phase := Draining({}, Some(["*"])));
    ContinueConcat(drained, [SortUp, BeginDrop], [Drop(0)]);
    TwoSteps(drained, SortUp, BeginDrop);
    ReducedOne("*");
    var dropping := Loaded("a.*").(phase := Dropping(["*"], {}));
    assert Next(Next(drained, SortUp), BeginDrop) == dropping;
    var s := Next(dropping, Drop(0));
    assert Continue(dropping, [Drop(0)]) == Continue(s, []) == s;
    StarIsEverything(s);
  }

  lemma StarIsEverything(s: Pump)
    requires Gap(s.phase) == {"a.*"} && s.inForce == ["a.*"]
    ensures Doomed(s, "a.x") && Glob.AnyMatches(s.inForce, "a.x") && Glob.AnyMatches(["*"], "a.x")
  {
    assert Glob.IsWild("a.*") && Glob.Stem("a.*") == "a" && Glob.PatternMatches("a.*", "a.x");
    assert "a.*" in Gap(s.phase) && "a.*" in s.inForce && "*" in ["*"];
  }
}
