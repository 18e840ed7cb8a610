/**
 The trigger pump: one unbounded bus receiver per covering pattern of the active triggers, drained
 into one batch per tick. A receiver list stands for the pattern-keyed table; its order means
 nothing, and draining picks receivers in any order.
 */
module TriggerPump {
  import opened Prelude
  import opened Values
  import opened TriggerEngine
  import AwaitPools
  import Glob
  import Covering

  /** An event together with the number of its publication. */
  datatype Item = Item(id: nat, event: Event)

  datatype Receiver = Receiver(pattern: string, queue: seq<Item>)

  // ----- which patterns the triggers need -----

  /** A trigger listens for its source; one that awaits also for the awaited kind and for both
      completions of its action. Cron triggers listen for nothing. */
  function PatternsOf(t: Trigger): seq<string> {
    if t.source.None? then []
    else
      [t.source.value.kind]
      + if t.awaits.None? then [] else [t.awaits.value.kind, t.action + ".completed", t.action + ".failed"]
  }

  function RawPatterns(ts: seq<Trigger>): seq<string> {
    if ts == [] then [] else RawPatterns(ts[..|ts| - 1]) + PatternsOf(ts[|ts| - 1])
  }

  lemma RawPatternsSnoc(ts: seq<Trigger>, i: nat)
    requires i < |ts|
    ensures RawPatterns(ts[..i + 1]) == RawPatterns(ts[..i]) + PatternsOf(ts[i])
  {
    assert ts[..i + 1][..i] == ts[..i];
  }

  function Patterns(rs: seq<Receiver>): seq<string> {
    seq(|rs|, i requires 0 <= i < |rs| => rs[i].pattern)
  }

  function Needed(needed: seq<string>): Receiver -> bool {
    (r: Receiver) => r.pattern in needed
  }

  function Missing(have: seq<string>): string -> bool {
    (p: string) => p !in have
  }

  function Opened(patterns: seq<string>): seq<Receiver> {
    seq(|patterns|, i requires 0 <= i < |patterns| => Receiver(patterns[i], []))
  }

  /** Receivers still needed are kept with what they hold, new patterns get an empty one. */
  function Reconciled(rs: seq<Receiver>, needed: seq<string>): seq<Receiver> {
    Filter(rs, Needed(needed)) + Opened(Filter(needed, Missing(Patterns(rs))))
  }

  // ----- the batch -----

  predicate IsCompletion(e: Event) {
    e.source == AwaitPools.COMPLETION_SOURCE
    && (AwaitPools.EndsWith(e.kind, ".completed") || AwaitPools.EndsWith(e.kind, ".failed"))
  }

  lemma CompletionExactly(e: Event)
    ensures IsCompletion(e) <==>
            e.source == "copad.action"
            && exists action: string :: e.kind == action + ".completed" || e.kind == action + ".failed"
  {
    forall action: string
      ensures e.kind == action + ".completed" ==> AwaitPools.EndsWith(e.kind, ".completed")
      ensures e.kind == action + ".failed" ==> AwaitPools.EndsWith(e.kind, ".failed")
    {
      AwaitPools.StripsExactly(e.kind, ".completed", action);
      AwaitPools.StripsExactly(e.kind, ".failed", action);
    }
    if AwaitPools.EndsWith(e.kind, ".completed") {
      assert e.kind == e.kind[..|e.kind| - 10] + ".completed";
    }
    if AwaitPools.EndsWith(e.kind, ".failed") {
      assert e.kind == e.kind[..|e.kind| - 7] + ".failed";
    }
  }

  function Completions(): Item -> bool {
    (x: Item) => IsCompletion(x.event)
  }

  function Others(): Item -> bool {
    (x: Item) => !IsCompletion(x.event)
  }

  /** The stable sort that puts registry completions first. */
  function Sorted(batch: seq<Item>): seq<Item> {
    Filter(batch, Completions()) + Filter(batch, Others())
  }

  function Flatten(rs: seq<Receiver>): seq<Item> {
    if rs == [] then [] else rs[0].queue + Flatten(rs[1..])
  }

  function Emptied(rs: seq<Receiver>): seq<Receiver> {
    seq(|rs|, i requires 0 <= i < |rs| => rs[i].(queue := []))
  }

  /** The queues of the receivers listed by `order`, one after another. */
  function Drained(rs: seq<Receiver>, order: seq<nat>): seq<Item>
    requires forall i :: 0 <= i < |order| ==> order[i] < |rs|
  {
    if order == [] then [] else Drained(rs, order[..|order| - 1]) + rs[order[|order| - 1]].queue
  }

  predicate IsOrder(order: seq<nat>, n: nat) {
    && (forall i :: 0 <= i < |order| ==> order[i] < n)
    && (forall i, j :: 0 <= i < j < |order| ==> order[i] != order[j])
    && (forall k: nat :: k < n ==> k in order)
  }

  function Below(n: nat): (r: set<nat>)
    ensures forall k: nat :: k in r <==> k < n
  {
    if n == 0 then {} else Below(n - 1) + {n - 1}
  }

  /** Part of the way through a drain: those in `order` are empty, those still to do untouched. */
  ghost predicate Draining(was: seq<Receiver>, rs: seq<Receiver>, todo: set<nat>, order: seq<nat>) {
    && |rs| == |was|
    && (forall i :: 0 <= i < |order| ==> order[i] < |was| && order[i] !in todo)
    && (forall i, j :: 0 <= i < j < |order| ==> order[i] != order[j])
    && (forall k: nat :: k in todo ==> k < |was| && rs[k] == was[k])
    && (forall k: nat :: k < |was| && k !in todo ==> k in order && rs[k] == was[k].(queue := []))
  }

  lemma DrainOne(was: seq<Receiver>, rs: seq<Receiver>, todo: set<nat>, order: seq<nat>, i: nat)
    requires Draining(was, rs, todo, order) && i in todo
    ensures Draining(was, rs[i := rs[i].(queue := [])], todo - {i}, order + [i])
    ensures Drained(was, order + [i]) == Drained(was, order) + rs[i].queue
  {
    assert (order + [i])[..|order|] == order;
    forall k: nat | k < |was| && k !in todo - {i}
      ensures k in order + [i]
    {
      if k == i {
        assert (order + [i])[|order|] == i;
      }
    }
  }

  // ----- the object -----

  class TriggerSubscriptions {
    var receivers: seq<Receiver>

    constructor ()
      ensures receivers == []
    {
      receivers := [];
    }

    static method CollectPatterns(ts: seq<Trigger>) returns (raw: seq<string>)
      ensures raw == RawPatterns(ts)
    {
      raw := [];
      var i := 0;
      while i < |ts|
        invariant 0 <= i <= |ts|
        invariant raw == RawPatterns(ts[..i])
      {
        RawPatternsSnoc(ts, i);
        var t, patterns := ts[i], [];
        if t.source.Some? {
          patterns := [t.source.value.kind];
          if t.awaits.Some? {
            patterns := patterns + [t.awaits.value.kind, t.action + ".completed", t.action + ".failed"];
          }
        }
        assert patterns == PatternsOf(t);
        raw := raw + patterns;
        i := i + 1;
      }
      assert ts[..i] == ts;
    }

    static method OpenMissing(have: seq<string>, needed: seq<string>) returns (added: seq<Receiver>)
      ensures added == Opened(Filter(needed, Missing(have)))
    {
      added := [];
      var i := 0;
      while i < |needed|
        invariant 0 <= i <= |needed|
        invariant added == Opened(Filter(needed[..i], Missing(have)))
      {
        FilterSnoc(needed, i, Missing(have));
        if needed[i] !in have {
          added := added + [Receiver(needed[i], [])];
        }
        i := i + 1;
      }
      assert needed[..i] == needed;
    }

    method Reconcile(ts: seq<Trigger>)
      modifies this
      ensures receivers == Reconciled(old(receivers), Covering.Reduced(RawPatterns(ts)))
    {
      var raw := CollectPatterns(ts);
      var needed := Covering.CoveringPatterns(raw);
      var have := Patterns(receivers);
      var missing := OpenMissing(have, needed);
      receivers := Filter(receivers, Needed(needed)) + missing;
    }

    /** Takes everything out of every receiver, in some order of the receivers, and hands back the
        batch to dispatch. */
    method DrainInto() returns (batch: seq<Item>, ghost order: seq<nat>)
      modifies this
      ensures IsOrder(order, |old(receivers)|)
      ensures batch == Sorted(Drained(old(receivers), order))
      ensures receivers == Emptied(old(receivers))
    {
      var all: seq<Item> := [];
      order := [];
      var todo := Below(|receivers|);
      ghost var was := receivers;
      while todo != {}
        invariant Draining(was, receivers, todo, order) && all == Drained(was, order)
        decreases todo
      {
        var i :| i in todo;
        DrainOne(was, receivers, todo, order, i);
        todo := todo - {i};
        all := all + receivers[i].queue;
        receivers := receivers[i := receivers[i].(queue := [])];
        order := order + [i];
      }
      assert receivers == Emptied(was);
      batch := SortBatch(all);
    }

    static method SortBatch(all: seq<Item>) returns (batch: seq<Item>)
      ensures batch == Sorted(all)
    {
      var first: seq<Item>, second: seq<Item> := [], [];
      var i := 0;
      while i < |all|
        invariant 0 <= i <= |all|
        invariant first == Filter(all[..i], Completions()) && second == Filter(all[..i], Others())
      {
        FilterSnoc(all, i, Completions());
        FilterSnoc(all, i, Others());
        if IsCompletion(all[i].event) {
          first := first + [all[i]];
        } else {
          second := second + [all[i]];
        }
        i := i + 1;
      }
      assert all[..i] == all;
      batch := first + second;
    }
  }

  // ----- what the batch keeps -----

  function ItemId(id: nat): Item -> bool {
    (x: Item) => x.id == id
  }

  /** The sorted batch is a permutation. */
  lemma SortedKeepsItems(batch: seq<Item>, id: nat)
    ensures Count(Sorted(batch), ItemId(id)) == Count(batch, ItemId(id))
  {
    CountSplit(batch, Completions(), Others(), ItemId(id));
    CountConcat(Filter(batch, Completions()), Filter(batch, Others()), ItemId(id));
  }

  /** In the batch every completion stands before every other event. */
  lemma CompletionsFirst(batch: seq<Item>, i: nat, j: nat)
    requires i < j < |Sorted(batch)| && IsCompletion(Sorted(batch)[j].event)
    ensures IsCompletion(Sorted(batch)[i].event)
  {
    var first, second := Filter(batch, Completions()), Filter(batch, Others());
    FilterMembers(batch, Completions());
    FilterMembers(batch, Others());
    forall k | 0 <= k < |second|
      ensures !IsCompletion(second[k].event)
    {
      assert second[k] in second && Others()(second[k]);
    }
    forall k | 0 <= k < |first|
      ensures IsCompletion(first[k].event)
    {
      assert first[k] in first && Completions()(first[k]);
    }
  }

  /** No completion in `q` stands after another event. */
  predicate CompletionsLead(q: seq<Item>) {
    forall i, j :: 0 <= i < j < |q| && IsCompletion(q[j].event) ==> IsCompletion(q[i].event)
  }

  /** Sorting and then selecting is selecting and then sorting. */
  lemma SelectedThenSorted(batch: seq<Item>, pick: Item -> bool)
    ensures Filter(Sorted(batch), pick) == Sorted(Filter(batch, pick))
  {
    FilterConcat(Filter(batch, Completions()), Filter(batch, Others()), pick);
    FilterSwap(batch, Completions(), pick);
    FilterSwap(batch, Others(), pick);
  }

  lemma {:induction false} SortedAlready(q: seq<Item>)
    requires CompletionsLead(q)
    ensures Sorted(q) == q
  {
    if q == [] {
    } else {
      var first, rest := q[0], q[1..];
      FilterHead(q, Completions());
      FilterHead(q, Others());
      if IsCompletion(first.event) {
        SortedAlready(rest);
        ConcatAssoc([first], Filter(rest, Completions()), Filter(rest, Others()));
      } else {
        forall x | x in q
          ensures Others()(x) && !Completions()(x)
        {
          var k :| 0 <= k < |q| && q[k] == x;
          assert k > 0 ==> !IsCompletion(q[k].event);
        }
        FilterNone(q, Completions());
        FilterAll(q, Others());
      }
      assert [first] + rest == q;
    }
  }

  /** The sort keeps the order of a selection, such as what one receiver delivered, exactly when no
      completion in it comes after another event. */
  lemma OrderKeptExactly(batch: seq<Item>, pick: Item -> bool)
    ensures Filter(Sorted(batch), pick) == Filter(batch, pick) <==> CompletionsLead(Filter(batch, pick))
  {
    var q := Filter(batch, pick);
    SelectedThenSorted(batch, pick);
    if CompletionsLead(q) {
      SortedAlready(q);
    }
    if Sorted(q) == q {
      forall i, j | 0 <= i < j < |q| && IsCompletion(q[j].event)
        ensures IsCompletion(q[i].event)
      {
        CompletionsFirst(q, i, j);
      }
    }
  }

  /** `pick` selects what receiver `k` holds and nothing another one holds. */
  ghost predicate Selects(rs: seq<Receiver>, k: nat, pick: Item -> bool) {
    forall i, x :: 0 <= i < |rs| && x in rs[i].queue ==> (pick(x) <==> i == k)
  }

  lemma {:induction false} DrainedSelection(rs: seq<Receiver>, order: seq<nat>, k: nat, pick: Item -> bool)
    requires k < |rs| && Selects(rs, k, pick) && Distinct(order)
    requires forall i :: 0 <= i < |order| ==> order[i] < |rs|
    ensures Filter(Drained(rs, order), pick) == if k in order then rs[k].queue else []
  {
    if order == [] {
    } else {
      var before, last := order[..|order| - 1], order[|order| - 1];
      var queue := rs[last].queue;
      DrainedSelection(rs, before, k, pick);
      FilterConcat(Drained(rs, before), queue, pick);
      if last == k {
        FilterAll(queue, pick);
        assert [] + queue == queue;
      } else {
        FilterNone(queue, pick);
        assert rs[k].queue + [] == rs[k].queue;
      }
      assert k in order <==> k in before || k == last;
    }
  }

  /** Whatever order the receivers are drained in, what one of them delivered stands in the batch in
      its own order exactly when no completion in its queue comes after another event. */
  lemma ReceiverOrderKeptExactly(rs: seq<Receiver>, order: seq<nat>, k: nat, pick: Item -> bool)
    requires IsOrder(order, |rs|) && k < |rs| && Selects(rs, k, pick)
    ensures Filter(Sorted(Drained(rs, order)), pick) == rs[k].queue <==> CompletionsLead(rs[k].queue)
  {
    DrainedSelection(rs, order, k, pick);
    OrderKeptExactly(Drained(rs, order), pick);
  }

  /** So any selection of events of one class keeps its order. */
  lemma ClassOrderKept(batch: seq<Item>, pick: Item -> bool, completions: bool)
    requires forall x :: pick(x) ==> IsCompletion(x.event) == completions
    ensures Filter(Sorted(batch), pick) == Filter(batch, pick)
  {
    var q := Filter(batch, pick);
    FilterMembers(batch, pick);
    forall i | 0 <= i < |q|
      ensures IsCompletion(q[i].event) == completions
    {
      assert q[i] in q && pick(q[i]);
    }
    OrderKeptExactly(batch, pick);
  }

  /** One receiver, drained: its two events come out swapped. */
  lemma ReceiverCanBeReordered()
    ensures var plain := Item(0, Event("x", "test", 0, Null, None, Internal));
            var done := Item(1, Event("a.completed", AwaitPools.COMPLETION_SOURCE, 0, Null, None, Internal));
            Sorted(Drained([Receiver("*", [plain, done])], [0])) == [done, plain]
  {
    var plain := Item(0, Event("x", "test", 0, Null, None, Internal));
    var done := Item(1, Event("a.completed", AwaitPools.COMPLETION_SOURCE, 0, Null, None, Internal));
    var receivers := [Receiver("*", [plain, done])];
    assert Drained(receivers, [0]) == Drained(receivers, []) + [plain, done] == [plain, done];
    assert !IsCompletion(plain.event) && IsCompletion(done.event);
    FilterConcat([plain], [done], Completions());
    FilterConcat([plain], [done], Others());
    assert [plain] + [done] == [plain, done];
    assert [done] + [plain] == [done, plain];
    assert Filter([plain], Completions()) == [] && Filter([done], Completions()) == [done];
    assert Filter([plain], Others()) == [plain] && Filter([done], Others()) == [];
  }
}
