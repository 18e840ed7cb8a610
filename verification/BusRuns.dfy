/** Whole runs of the bus under any interleaving of publishers, subscribers and receivers. */
module BusRuns {
  import opened Prelude
  import opened Values
  import opened EventBus
  import Glob

  datatype Step =
    | Record(event: Event)
    | Distribute(n: nat, blocked: set<nat>)
    | Subscribe(patterns: seq<string>, buffer: Option<nat>)
    | Take(r: nat)
    | Drop(r: nat)

  predicate Enabled(b: BusState, t: Step) {
    match t
    case Distribute(n, _) => n in b.waiting && n < |b.recorded|
    case Take(r) => r < |b.subscribers| && b.subscribers[r].alive && b.subscribers[r].queue != []
    case Drop(r) => r < |b.subscribers|
    case _ => true
  }

  /** A step that is not enabled does nothing. */
  function Next(b: BusState, t: Step): BusState {
    if !Enabled(b, t) then b
    else
      match t
      case Record(event) => Recorded(b, event)
      case Distribute(n, blocked) => Distributed(b, n, blocked)
      case Subscribe(patterns, buffer) => Subscribed(b, patterns, buffer)
      case Take(r) => Taken(b, r)
      case Drop(r) => Dropped(b, r)
  }

  function RunOf(cap: nat, steps: seq<Step>): BusState {
    if steps == [] then Start(cap) else Next(RunOf(cap, steps[..|steps| - 1]), steps[|steps| - 1])
  }

  // ----- order -----

  /** `a` is `b` with some elements left out. */
  predicate Subsequence(a: seq<nat>, b: seq<nat>) {
    if a == [] then true
    else if b == [] then false
    else
      (a[|a| - 1] == b[|b| - 1] && Subsequence(a[..|a| - 1], b[..|b| - 1])) || Subsequence(a, b[..|b| - 1])
  }

  /** Two elements of a subsequence stand in the same order in the whole. */
  lemma {:induction false} SubsequencePositions(a: seq<nat>, b: seq<nat>, i: nat, j: nat) returns (p: nat, q: nat)
    requires Subsequence(a, b) && i < j < |a|
    ensures p < q < |b| && b[p] == a[i] && b[q] == a[j]
  {
    var shorter := b[..|b| - 1];
    if Subsequence(a, shorter) {
      p, q := SubsequencePositions(a, shorter, i, j);
    } else if j == |a| - 1 {
      q := |b| - 1;
      p := SubsequencePosition(a[..|a| - 1], shorter, i);
    } else {
      p, q := SubsequencePositions(a[..|a| - 1], shorter, i, j);
    }
  }

  lemma {:induction false} SubsequencePosition(a: seq<nat>, b: seq<nat>, i: nat) returns (p: nat)
    requires Subsequence(a, b) && i < |a|
    ensures p < |b| && b[p] == a[i]
  {
    var shorter := b[..|b| - 1];
    if Subsequence(a, shorter) {
      p := SubsequencePosition(a, shorter, i);
    } else if i == |a| - 1 {
      p := |b| - 1;
    } else {
      p := SubsequencePosition(a[..|a| - 1], shorter, i);
    }
  }

  // ----- invariants -----

  function Wanted(recorded: seq<Event>, patterns: seq<string>): nat -> bool {
    (n: nat) => n < |recorded| && Glob.AnyMatches(patterns, recorded[n].kind)
  }

  /** Everything the receiver ought to see: what was distributed since it subscribed and matches. */
  function Due(b: BusState, s: Subscriber): seq<nat>
    requires s.since <= |b.sent|
  {
    Filter(b.sent[s.since..], Wanted(b.recorded, s.patterns))
  }

  function Stream(s: Subscriber): seq<nat> {
    s.taken + s.queue
  }

  /** What a receiver got and what it missed make up all it was due, and it got its part in order. */
  ghost predicate StreamSound(b: BusState, s: Subscriber) {
    && s.since <= |b.sent|
    && (s.buffer.None? ==> s.missed == [] && Stream(s) == Due(b, s))
    && Subsequence(Stream(s), Due(b, s))
    && multiset(Stream(s)) + multiset(s.missed) == multiset(Due(b, s))
    && (s.buffer.Some? ==> |s.queue| <= s.buffer.value)
  }

  function LastOf(s: seq<Event>, cap: nat): seq<Event> {
    if |s| <= cap then s else s[|s| - cap..]
  }

  ghost predicate Sound(b: BusState) {
    && b.cap >= 1
    && b.history == LastOf(b.recorded, b.cap)
    && (forall n :: n in b.waiting ==> n < |b.recorded| && n !in b.sent)
    && (forall n :: n in b.sent ==> n < |b.recorded|)
    && Distinct(b.sent)
    && (forall r: nat :: r < |b.subscribers| && b.subscribers[r].alive ==>
          r in b.listed && StreamSound(b, b.subscribers[r]))
  }

  lemma RecordSound(b: BusState, event: Event)
    requires Sound(b)
    ensures Sound(Recorded(b, event))
  {
    var next := Recorded(b, event);
    forall r: nat | r < |b.subscribers| && b.subscribers[r].alive
      ensures StreamSound(next, b.subscribers[r])
    {
      var s := b.subscribers[r];
      var all := b.sent[s.since..];
      forall x | x in all
        ensures Wanted(b.recorded, s.patterns)(x) == Wanted(next.recorded, s.patterns)(x)
      {
        assert x in b.sent;
      }
      FilterSame(all, Wanted(b.recorded, s.patterns), Wanted(next.recorded, s.patterns));
    }
  }

  lemma DueSnoc(b: BusState, s: Subscriber, n: nat)
    requires s.since <= |b.sent| && n < |b.recorded|
    ensures var next := b.(sent := b.sent + [n]);
            Due(next, s) == Due(b, s) + if Glob.AnyMatches(s.patterns, b.recorded[n].kind) then [n] else []
  {
    assert (b.sent + [n])[s.since..] == b.sent[s.since..] + [n];
    FilterConcat(b.sent[s.since..], [n], Wanted(b.recorded, s.patterns));
  }

  lemma SubsequenceSnoc(a: seq<nat>, b: seq<nat>, n: nat)
    requires Subsequence(a, b)
    ensures Subsequence(a, b + [n]) && Subsequence(a + [n], b + [n])
  {
    assert (b + [n])[..|b|] == b && (a + [n])[..|a|] == a;
  }

  /** What an offer adds to the stream or to what was missed. */
  lemma OfferAdds(s: Subscriber, n: nat, kind: string, blocked: bool)
    requires s.alive && Glob.AnyMatches(s.patterns, kind)
    requires s.buffer.Some? ==> |s.queue| <= s.buffer.value
    ensures var after := Offered(s, n, kind, blocked);
            || (Stream(after) == Stream(s) + [n] && after.missed == s.missed)
            || (Stream(after) == Stream(s) && after.missed == s.missed + [n] && Full(s))
  {
    if !Full(s) {
      assert s.taken + (s.queue + [n]) == s.taken + s.queue + [n];
    } else if s.buffer == Some(0) && blocked {
      assert s.queue == [] && s.taken + [n] + [] == s.taken + [] + [n];
    }
  }

  lemma MultisetSnoc(s: seq<nat>, n: nat)
    ensures multiset(s + [n]) == multiset(s) + multiset{n}
  {
  }

  lemma OfferWanted(s: Subscriber, due: seq<nat>, n: nat, kind: string, blocked: bool)
    requires s.alive && Glob.AnyMatches(s.patterns, kind)
    requires s.buffer.Some? ==> |s.queue| <= s.buffer.value
    requires Subsequence(Stream(s), due) && multiset(Stream(s)) + multiset(s.missed) == multiset(due)
    ensures var after := Offered(s, n, kind, blocked);
            && Subsequence(Stream(after), due + [n])
            && multiset(Stream(after)) + multiset(after.missed) == multiset(due + [n])
  {
    OfferAdds(s, n, kind, blocked);
    SubsequenceSnoc(Stream(s), due, n);
    MultisetSnoc(due, n);
    MultisetSnoc(Stream(s), n);
    MultisetSnoc(s.missed, n);
  }

  lemma OfferSound(b: BusState, s: Subscriber, n: nat, blocked: bool)
    requires StreamSound(b, s) && s.alive && n < |b.recorded|
    ensures StreamSound(b.(sent := b.sent + [n]), Offered(s, n, b.recorded[n].kind, blocked))
  {
    var kind, due := b.recorded[n].kind, Due(b, s);
    DueSnoc(b, s, n);
    if Glob.AnyMatches(s.patterns, kind) {
      OfferWanted(s, due, n, kind, blocked);
      OfferAdds(s, n, kind, blocked);
    } else {
      assert due + [] == due;
    }
  }

  lemma DistributeSound(b: BusState, n: nat, blocked: set<nat>)
    requires Sound(b) && n in b.waiting
    ensures Sound(Distributed(b, n, blocked))
  {
    var next := Distributed(b, n, blocked);
    forall r: nat | r < |next.subscribers| && next.subscribers[r].alive
      ensures r in next.listed && StreamSound(next, next.subscribers[r])
    {
      OfferSound(b, b.subscribers[r], n, r in blocked);
      assert Due(next, next.subscribers[r]) == Due(b.(sent := b.sent + [n]), next.subscribers[r]);
    }
  }

  lemma SubscribeSound(b: BusState, patterns: seq<string>, buffer: Option<nat>)
    requires Sound(b)
    ensures Sound(Subscribed(b, patterns, buffer))
  {
  }

  lemma TakeSound(b: BusState, r: nat)
    requires Sound(b) && r < |b.subscribers| && b.subscribers[r].alive && b.subscribers[r].queue != []
    ensures Sound(Taken(b, r))
  {
    var s := b.subscribers[r];
    assert s.taken + [s.queue[0]] + s.queue[1..] == s.taken + s.queue;
    var next := Taken(b, r);
    forall q: nat | q < |next.subscribers| && next.subscribers[q].alive
      ensures StreamSound(next, next.subscribers[q])
    {
      assert Due(next, next.subscribers[q]) == Due(b, b.subscribers[q]);
    }
  }

  lemma DropSound(b: BusState, r: nat)
    requires Sound(b) && r < |b.subscribers|
    ensures Sound(Dropped(b, r))
  {
  }

  lemma {:induction false} AlwaysSound(cap: nat, steps: seq<Step>)
    ensures Sound(RunOf(cap, steps))
  {
    if steps == [] {
    } else {
      var t := steps[|steps| - 1];
      var before := RunOf(cap, steps[..|steps| - 1]);
      AlwaysSound(cap, steps[..|steps| - 1]);
      if Enabled(before, t) {
        match t
        case Record(event) => RecordSound(before, event);
        case Distribute(n, blocked) => DistributeSound(before, n, blocked);
        case Subscribe(patterns, buffer) => SubscribeSound(before, patterns, buffer);
        case Take(r) => TakeSound(before, r);
        case Drop(r) => DropSound(before, r);
      }
    }
  }

  // ----- one distribution -----

  /** The receiver wants the kind: one of its patterns stands for it. */
  ghost predicate Wants(s: Subscriber, kind: string) {
    exists p :: p in s.patterns && Glob.StandsFor(p, kind)
  }

  /** A live receiver on the list that wants the event gets it: into its queue while there is room,
      into its hands if it has no buffer and is blocked waiting, and otherwise it misses it. One found
      dead leaves the list; nothing else changes. */
  lemma DistributeExactly(b: BusState, n: nat, blocked: set<nat>, r: nat)
    requires n < |b.recorded| && r < |b.subscribers|
    ensures var s, after := b.subscribers[r], Distributed(b, n, blocked).subscribers[r];
            var gets := r in b.listed && s.alive && Wants(s, b.recorded[n].kind);
            var room := s.buffer.None? || |s.queue| < s.buffer.value;
            var handed := s.buffer == Some(0) && r in blocked;
            && after.queue == s.queue + (if gets && room then [n] else [])
            && after.taken == s.taken + (if gets && !room && handed then [n] else [])
            && after.missed == s.missed + (if gets && !room && !handed then [n] else [])
            && after.patterns == s.patterns && after.buffer == s.buffer && after.alive == s.alive
            && (r in Distributed(b, n, blocked).listed <==>
                  r in b.listed && (s.alive || !Wants(s, b.recorded[n].kind)))
  {
    var s := b.subscribers[r];
    WantsExactly(s, b.recorded[n].kind);
    AppendNothing(s.queue);
    AppendNothing(s.taken);
    AppendNothing(s.missed);
  }

  lemma WantsExactly(s: Subscriber, kind: string)
    ensures Glob.AnyMatches(s.patterns, kind) <==> Wants(s, kind)
  {
    forall p | p in s.patterns
      ensures Glob.PatternMatches(p, kind) <==> Glob.StandsFor(p, kind)
    {
      Glob.MatchesExactly(p, kind);
    }
  }

  /** A subscription adds one live receiver on the list, with the patterns and the buffer asked for,
      nothing in it, and nothing due yet. */
  lemma SubscribeExactly(b: BusState, patterns: seq<string>, buffer: Option<nat>)
    ensures var after, r := Subscribed(b, patterns, buffer), |b.subscribers|;
            && after == b.(subscribers := after.subscribers, listed := b.listed + {r})
            && |after.subscribers| == r + 1 && b.subscribers <= after.subscribers
            && var s := after.subscribers[r];
               && s.patterns == patterns && s.buffer == buffer && s.alive
               && s.queue == s.taken == s.missed == [] && s.since == |b.sent|
  {
  }

  // ----- main results -----

  /** The history is the last `cap` records, and a receiver only ever gets recorded events, each
      publication at most once. */
  lemma RecordedFirst(cap: nat, steps: seq<Step>, b: BusState, r: nat)
    requires b == RunOf(cap, steps) && r < |b.subscribers| && b.subscribers[r].alive
    ensures b.history == LastOf(b.recorded, b.cap)
    ensures forall n :: n in Stream(b.subscribers[r]) ==> n < |b.recorded| && n !in b.waiting
    ensures Distinct(Stream(b.subscribers[r]))
  {
    AlwaysSound(cap, steps);
    var s := b.subscribers[r];
    var all := b.sent[s.since..];
    FilterMembers(all, Wanted(b.recorded, s.patterns));
    FilterDistinct(all, Wanted(b.recorded, s.patterns));
    forall n | n in Stream(s)
      ensures n in b.sent
    {
      var i :| 0 <= i < |Stream(s)| && Stream(s)[i] == n;
      var p := SubsequencePosition(Stream(s), Due(b, s), i);
      assert Due(b, s)[p] in all;
    }
    forall i, j | 0 <= i < j < |Stream(s)|
      ensures Stream(s)[i] != Stream(s)[j]
    {
      var p, q := SubsequencePositions(Stream(s), Due(b, s), i, j);
    }
  }

  lemma {:induction false} CapacityFixed(cap: nat, steps: seq<Step>)
    ensures RunOf(cap, steps).cap == if cap >= 1 then cap else 1
  {
    if steps == [] {
    } else {
      CapacityFixed(cap, steps[..|steps| - 1]);
    }
  }

  /** A history query returns, oldest first, exactly those of the last `cap` recorded events (one at
      least) that pass its filters, whether they were distributed yet or not. */
  lemma HistoryIsTheRecentLog(cap: nat, steps: seq<Step>, since: Option<nat>, pattern: Option<string>, e: Event)
    ensures var b := RunOf(cap, steps);
            var recent := LastOf(b.recorded, if cap >= 1 then cap else 1);
            && History(b, since, pattern) == Filter(recent, Passing(since, pattern))
            && (e in History(b, since, pattern) <==>
                  e in recent && (since.Some? ==> since.value <= e.timestampMs)
                  && (pattern.Some? ==> Glob.StandsFor(pattern.value, e.kind)))
  {
    AlwaysSound(cap, steps);
    CapacityFixed(cap, steps);
    FilterMembers(RunOf(cap, steps).history, Passing(since, pattern));
    if pattern.Some? {
      Glob.MatchesExactly(pattern.value, e.kind);
    }
    assert e in History(RunOf(cap, steps), since, pattern) <==>
           e in RunOf(cap, steps).history && Passing(since, pattern)(e);
  }

  /** An unbounded receiver has got exactly the matching events distributed since it subscribed, in
      that order. A bounded one has got some of them, in that order, holding never more than its
      buffer, and has missed exactly the others, each once. */
  lemma ReceiversFollowTheLog(cap: nat, steps: seq<Step>, b: BusState, r: nat)
    requires b == RunOf(cap, steps) && r < |b.subscribers| && b.subscribers[r].alive
    ensures var s := b.subscribers[r];
            && s.since <= |b.sent|
            && (s.buffer.None? ==> s.missed == [] && Stream(s) == Due(b, s))
            && (s.buffer.Some? ==> Subsequence(Stream(s), Due(b, s)) && |s.queue| <= s.buffer.value)
            && multiset(Stream(s)) + multiset(s.missed) == multiset(Due(b, s))
            && (forall n :: n in Due(b, s) ==> (n in s.missed <==> n !in Stream(s)))
  {
    AlwaysSound(cap, steps);
    var s := b.subscribers[r];
    FilterDistinct(b.sent[s.since..], Wanted(b.recorded, s.patterns));
    forall n | n in Due(b, s)
      ensures n in s.missed <==> n !in Stream(s)
    {
      DistinctOnce(Due(b, s), n);
      assert multiset(Stream(s))[n] + multiset(s.missed)[n] == 1;
    }
  }

  lemma DistinctOnce(s: seq<nat>, n: nat)
    requires Distinct(s) && n in s
    ensures multiset(s)[n] == 1
  {
    var i :| 0 <= i < |s| && s[i] == n;
    assert s == s[..i] + [n] + s[i + 1..];
    assert n !in s[..i] && n !in s[i + 1..];
    assert multiset(s) == multiset(s[..i]) + multiset{n} + multiset(s[i + 1..]);
  }

  /** An event is missed only because the queue was full at the moment it was distributed, and
      without any buffer only if the receiver was not blocked waiting for it. */
  lemma {:induction false} MissedOnlyWhenFull(cap: nat, steps: seq<Step>, r: nat, n: nat) returns (k: nat)
    requires r < |RunOf(cap, steps).subscribers| && n in RunOf(cap, steps).subscribers[r].missed
    ensures k < |steps| && steps[k].Distribute? && steps[k].n == n
    ensures r < |RunOf(cap, steps[..k]).subscribers|
    ensures var s := RunOf(cap, steps[..k]).subscribers[r];
            s.buffer.Some? && |s.queue| >= s.buffer.value && (s.buffer == Some(0) ==> r !in steps[k].blocked)
  {
    if steps == [] {
    } else {
      var last := |steps| - 1;
      var b := RunOf(cap, steps[..last]);
      if r < |b.subscribers| && n in b.subscribers[r].missed {
        k := MissedOnlyWhenFull(cap, steps[..last], r, n);
        assert steps[..last][..k] == steps[..k];
      } else {
        k := last;
        MissedNow(b, steps[last], r, n);
      }
    }
  }

  lemma MissedNow(b: BusState, t: Step, r: nat, n: nat)
    requires r < |Next(b, t).subscribers| && n in Next(b, t).subscribers[r].missed
    requires r < |b.subscribers| ==> n !in b.subscribers[r].missed
    ensures t.Distribute? && t.n == n && r < |b.subscribers|
    ensures Full(b.subscribers[r]) && (b.subscribers[r].buffer == Some(0) ==> r !in t.blocked)
  {
  }

  lemma {:induction false} FilterIsSubsequence(s: seq<nat>, keep: nat -> bool)
    ensures Subsequence(Filter(s, keep), s)
  {
    if s == [] {
    } else {
      var n := |s| - 1;
      FilterSnoc(s, n, keep);
      assert s[..n + 1] == s;
      FilterIsSubsequence(s[..n], keep);
      assert s[..n] + [s[n]] == s;
      assert Filter(s[..n], keep) + [] == Filter(s[..n], keep);
    }
  }

  lemma AliveFollows(cap: nat, steps: seq<Step>, r: nat)
    requires r < |RunOf(cap, steps).subscribers| && RunOf(cap, steps).subscribers[r].alive
    ensures var b := RunOf(cap, steps);
            var s := b.subscribers[r];
            s.since <= |b.sent| && Subsequence(Stream(s), Due(b, s))
  {
    AlwaysSound(cap, steps);
  }

  /** Where two publications stand in the order of distribution, given their order in a stream. */
  lemma StreamOrder(cap: nat, steps: seq<Step>, b: BusState, r: nat, i: nat, j: nat) returns (p: nat, q: nat)
    requires b == RunOf(cap, steps) && r < |b.subscribers| && b.subscribers[r].alive
    requires i < j < |Stream(b.subscribers[r])|
    ensures p < q < |b.sent|
    ensures b.sent[p] == Stream(b.subscribers[r])[i] && b.sent[q] == Stream(b.subscribers[r])[j]
  {
    AliveFollows(cap, steps, r);
    var s := b.subscribers[r];
    var all := b.sent[s.since..];
    var p1, q1 := SubsequencePositions(Stream(s), Due(b, s), i, j);
    FilterIsSubsequence(all, Wanted(b.recorded, s.patterns));
    var p2, q2 := SubsequencePositions(Due(b, s), all, p1, q1);
    p, q := s.since + p2, s.since + q2;
  }

  lemma SentOnce(cap: nat, steps: seq<Step>)
    ensures Distinct(RunOf(cap, steps).sent)
  {
    AlwaysSound(cap, steps);
  }

  lemma SamePlace(s: seq<nat>, i: nat, j: nat)
    requires Distinct(s) && i < |s| && j < |s| && s[i] == s[j]
    ensures i == j
  {
  }

  /** Two receivers see the events they both get in the same order. */
  lemma SameOrderEverywhere(
      cap: nat, steps: seq<Step>, b: BusState, r: nat, i: nat, j: nat, u: nat, k: nat, l: nat)
    requires b == RunOf(cap, steps)
    requires r < |b.subscribers| && u < |b.subscribers| && b.subscribers[r].alive && b.subscribers[u].alive
    requires i < j < |Stream(b.subscribers[r])| && k < |Stream(b.subscribers[u])| && l < |Stream(b.subscribers[u])|
    requires Stream(b.subscribers[r])[i] == Stream(b.subscribers[u])[k]
    requires Stream(b.subscribers[r])[j] == Stream(b.subscribers[u])[l]
    ensures k < l
  {
    SentOnce(cap, steps);
    var p, q := StreamOrder(cap, steps, b, r, i, j);
    if l < k {
      var p', q' := StreamOrder(cap, steps, b, u, l, k);
      SamePlace(b.sent, q, p');
      SamePlace(b.sent, p, q');
    } else if l == k {
      SamePlace(b.sent, p, q);
    }
  }
}
