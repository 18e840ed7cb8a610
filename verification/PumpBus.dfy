/**
 The pump over the real bus. A pump receiver is an unbounded bus subscription of one pattern; here
 the pump and the bus run side by side, with other publishers and other subscribers about, and stay
 in step.
 */
module PumpBus {
  import opened Prelude
  import opened Values
  import opened EventBus
  import opened TriggerPump
  import BusRuns
  import PumpRuns
  import Glob

  /** `subs` says which subscription of the bus each receiver of the pump is. */
  datatype Joint = Joint(pump: PumpRuns.Pump, bus: BusState, subs: seq<nat>)

  /** A publish is two sections. `Pump` is a step of the pump's own; `Other` one of a subscriber the
      pump does not own. */
  datatype Step =
    | Record(event: Event)
    | Distribute(n: nat, blocked: set<nat>)
    | Pump(t: PumpRuns.Step)
    | Other(step: BusRuns.Step)

  function Begin(cap: nat): Joint {
    Joint(PumpRuns.START, Start(cap), [])
  }

  predicate Owned(j: Joint, i: nat) {
    i < |j.subs| && j.subs[i] < |j.bus.subscribers|
  }

  /** What a step of the two together is for the bus: a drain takes until nothing is left. */
  function BusPart(j: Joint, t: Step): seq<BusRuns.Step> {
    match t
    case Record(event) => [BusRuns.Record(event)]
    case Distribute(n, blocked) => [BusRuns.Distribute(n, blocked)]
    case Pump(p) =>
      if !PumpRuns.Enabled(j.pump, p) then []
      else
        (match p
         case Drain(i) =>
           if Owned(j, i) then seq(|j.bus.subscribers[j.subs[i]].queue|, _ => BusRuns.Take(j.subs[i])) else []
         case Drop(i) => if Owned(j, i) then [BusRuns.Drop(j.subs[i])] else []
         case Open(pattern) => [BusRuns.Subscribe([pattern], None)]
         case _ => [])
    case Other(b) =>
      if b.Subscribe? || ((b.Take? || b.Drop?) && b.r !in j.subs) then [b] else []
  }

  /** And for the pump: a distribution is where an event is published to it. */
  function PumpPart(j: Joint, t: Step): seq<PumpRuns.Step> {
    match t
    case Distribute(n, blocked) =>
      if n in j.bus.waiting && n < |j.bus.recorded| then [PumpRuns.Publish(j.bus.recorded[n])] else []
    case Pump(p) => if p.Publish? then [] else [p]
    case _ => []
  }

  function SubsAfter(j: Joint, t: Step): seq<nat> {
    if !t.Pump? || !PumpRuns.Enabled(j.pump, t.t) then j.subs
    else
      match t.t
      case Open(_) => j.subs + [|j.bus.subscribers|]
      case Drop(i) => if i < |j.subs| then RemoveAt(j.subs, i) else j.subs
      case _ => j.subs
  }

  function Continue(b: BusState, ts: seq<BusRuns.Step>): BusState
    decreases |ts|
  {
    if ts == [] then b else Continue(BusRuns.Next(b, ts[0]), ts[1..])
  }

  function Next(j: Joint, t: Step): Joint {
    Joint(PumpRuns.Continue(j.pump, PumpPart(j, t)), Continue(j.bus, BusPart(j, t)), SubsAfter(j, t))
  }

  function Run(cap: nat, steps: seq<Step>): Joint {
    if steps == [] then Begin(cap) else Next(Run(cap, steps[..|steps| - 1]), steps[|steps| - 1])
  }

  // ----- each part is a run of its own -----

  function BusTrace(cap: nat, steps: seq<Step>): seq<BusRuns.Step> {
    if steps == [] then []
    else
      var before := steps[..|steps| - 1];
      BusTrace(cap, before) + BusPart(Run(cap, before), steps[|steps| - 1])
  }

  function PumpTrace(cap: nat, steps: seq<Step>): seq<PumpRuns.Step> {
    if steps == [] then []
    else
      var before := steps[..|steps| - 1];
      PumpTrace(cap, before) + PumpPart(Run(cap, before), steps[|steps| - 1])
  }

  lemma {:induction false} BusContinues(cap: nat, before: seq<BusRuns.Step>, after: seq<BusRuns.Step>)
    ensures BusRuns.RunOf(cap, before + after) == Continue(BusRuns.RunOf(cap, before), after)
    decreases |after|
  {
    if after == [] {
      assert before + after == before;
    } else {
      assert (before + [after[0]])[..|before|] == before;
      BusContinues(cap, before + [after[0]], after[1..]);
      assert before + [after[0]] + after[1..] == before + after;
    }
  }

  /** Seen from the bus the run is one of the bus, seen from the pump one of the pump; so what is
      proved of either holds here. */
  lemma {:induction false} PartsAreRuns(cap: nat, steps: seq<Step>)
    ensures Run(cap, steps).bus == BusRuns.RunOf(cap, BusTrace(cap, steps))
    ensures Run(cap, steps).pump == PumpRuns.RunOf(PumpTrace(cap, steps))
  {
    if steps == [] {
    } else {
      var before, t := steps[..|steps| - 1], steps[|steps| - 1];
      var j := Run(cap, before);
      PartsAreRuns(cap, before);
      BusContinues(cap, BusTrace(cap, before), BusPart(j, t));
      PumpRuns.RunContinues(PumpTrace(cap, before), PumpPart(j, t), PumpTrace(cap, steps));
    }
  }

  // ----- they stay in step -----

  /** Item `x` is the event of publication `n`; its number is the place of `n` in the order of
      distribution. */
  predicate IsItem(b: BusState, x: Item, n: nat) {
    x.id < |b.sent| && b.sent[x.id] == n && n < |b.recorded| && b.recorded[n] == x.event
  }

  /** The receiver holds what the subscription holds, in that order. */
  ghost predicate Mirrors(b: BusState, r: Receiver, k: nat) {
    && k < |b.subscribers| && k in b.listed
    && var s := b.subscribers[k];
       && s.alive && s.buffer.None? && s.patterns == [r.pattern]
       && |s.queue| == |r.queue|
       && forall i :: 0 <= i < |r.queue| ==> IsItem(b, r.queue[i], s.queue[i])
  }

  ghost predicate InStep(j: Joint) {
    && |j.subs| == |j.pump.receivers| && Distinct(j.subs)
    && j.pump.published == |j.bus.sent|
    && forall i: nat :: i < |j.subs| ==> Mirrors(j.bus, j.pump.receivers[i], j.subs[i])
  }

  lemma OneMore(b: BusState, t: BusRuns.Step)
    ensures Continue(b, [t]) == BusRuns.Next(b, t)
  {
    assert Continue(BusRuns.Next(b, t), []) == BusRuns.Next(b, t);
  }

  lemma OnePumpStep(p: PumpRuns.Pump, t: PumpRuns.Step)
    ensures PumpRuns.Continue(p, [t]) == PumpRuns.Next(p, t)
  {
    assert PumpRuns.Continue(PumpRuns.Next(p, t), []) == PumpRuns.Next(p, t);
  }

  /** A longer log changes nothing. */
  lemma StillMirrors(b: BusState, after: BusState, r: Receiver, k: nat)
    requires Mirrors(b, r, k) && k < |after.subscribers| && after.subscribers[k] == b.subscribers[k]
    requires k in after.listed && b.recorded <= after.recorded && b.sent <= after.sent
    ensures Mirrors(after, r, k)
  {
    forall i | 0 <= i < |r.queue|
      ensures IsItem(after, r.queue[i], b.subscribers[k].queue[i])
    {
      assert IsItem(b, r.queue[i], b.subscribers[k].queue[i]);
    }
  }

  lemma SameReceivers(j: Joint, after: Joint)
    requires InStep(j) && after.subs == j.subs && after.pump.receivers == j.pump.receivers
    requires after.pump.published == |after.bus.sent|
    requires j.bus.recorded <= after.bus.recorded && j.bus.sent <= after.bus.sent
    requires forall i: nat :: i < |j.subs| ==>
               j.subs[i] < |after.bus.subscribers| && j.subs[i] in after.bus.listed
               && (j.subs[i] < |j.bus.subscribers| ==>
                     after.bus.subscribers[j.subs[i]] == j.bus.subscribers[j.subs[i]])
    ensures InStep(after)
  {
    forall i: nat | i < |j.subs|
      ensures Mirrors(after.bus, after.pump.receivers[i], j.subs[i])
    {
      StillMirrors(j.bus, after.bus, j.pump.receivers[i], j.subs[i]);
    }
  }

  /** Distributing an event does to a mirrored subscription what publishing does to the receiver. */
  lemma DeliveryMirrors(b: BusState, r: Receiver, k: nat, n: nat, blocked: set<nat>)
    requires Mirrors(b, r, k) && n < |b.recorded|
    ensures Mirrors(Distributed(b, n, blocked), PumpRuns.Offered(r, Item(|b.sent|, b.recorded[n])), k)
  {
    var after, event := Distributed(b, n, blocked), b.recorded[n];
    var s := b.subscribers[k];
    OnlyPattern(r.pattern, event.kind);
    forall i | 0 <= i < |r.queue|
      ensures IsItem(after, r.queue[i], s.queue[i])
    {
      assert IsItem(b, r.queue[i], s.queue[i]);
    }
    assert IsItem(after, Item(|b.sent|, event), n);
  }

  lemma OnlyPattern(p: string, kind: string)
    ensures Glob.AnyMatches([p], kind) <==> Glob.PatternMatches(p, kind)
  {
    assert p in [p];
  }

  lemma DistributeInStep(j: Joint, n: nat, blocked: set<nat>)
    requires InStep(j)
    ensures InStep(Next(j, Distribute(n, blocked)))
  {
    var after := Next(j, Distribute(n, blocked));
    OneMore(j.bus, BusRuns.Distribute(n, blocked));
    if n in j.bus.waiting && n < |j.bus.recorded| {
      var event := j.bus.recorded[n];
      OnePumpStep(j.pump, PumpRuns.Publish(event));
      forall i: nat | i < |j.subs|
        ensures Mirrors(after.bus, after.pump.receivers[i], j.subs[i])
      {
        DeliveryMirrors(j.bus, j.pump.receivers[i], j.subs[i], n, blocked);
      }
    }
  }

  /** Taking until nothing is left, and what that takes. */
  lemma {:induction false} TakesAll(b: BusState, k: nat, n: nat)
    requires k < |b.subscribers| && b.subscribers[k].alive && n == |b.subscribers[k].queue|
    ensures var s := b.subscribers[k];
            Continue(b, seq(n, _ => BusRuns.Take(k)))
            == b.(subscribers := b.subscribers[k := s.(queue := [], taken := s.taken + s.queue)])
    decreases n
  {
    var s := b.subscribers[k];
    if n == 0 {
      assert s.taken + s.queue == s.taken;
      assert b.subscribers[k := s] == b.subscribers;
    } else {
      var ts := seq(n, _ => BusRuns.Take(k));
      var taken := BusRuns.Next(b, BusRuns.Take(k));
      assert ts[1..] == seq(n - 1, _ => BusRuns.Take(k));
      TakesAll(taken, k, n - 1);
      assert s.taken + [s.queue[0]] + s.queue[1..] == s.taken + s.queue;
    }
  }

  lemma DrainInStep(j: Joint, i: nat)
    requires InStep(j) && PumpRuns.Enabled(j.pump, PumpRuns.Drain(i))
    ensures InStep(Next(j, Pump(PumpRuns.Drain(i))))
  {
    var after, k := Next(j, Pump(PumpRuns.Drain(i))), j.subs[i];
    assert Mirrors(j.bus, j.pump.receivers[i], k);
    OnePumpStep(j.pump, PumpRuns.Drain(i));
    TakesAll(j.bus, k, |j.bus.subscribers[k].queue|);
    forall l: nat | l < |j.subs|
      ensures Mirrors(after.bus, after.pump.receivers[l], j.subs[l])
    {
      assert Mirrors(j.bus, j.pump.receivers[l], j.subs[l]);
      if l != i {
        StillMirrors(j.bus, after.bus, j.pump.receivers[l], j.subs[l]);
      }
    }
  }

  lemma {:induction false} RemoveDistinct(s: seq<nat>, i: nat)
    requires Distinct(s) && i < |s|
    ensures Distinct(RemoveAt(s, i)) && s[i] !in RemoveAt(s, i)
  {
    forall k | 0 <= k < |s| - 1
      ensures RemoveAt(s, i)[k] == s[if k < i then k else k + 1]
    {
      RemovedAt(s, i, k);
    }
  }

  lemma DropInStep(j: Joint, i: nat)
    requires InStep(j) && PumpRuns.Enabled(j.pump, PumpRuns.Drop(i))
    ensures InStep(Next(j, Pump(PumpRuns.Drop(i))))
  {
    var after := Next(j, Pump(PumpRuns.Drop(i)));
    assert Mirrors(j.bus, j.pump.receivers[i], j.subs[i]);
    OnePumpStep(j.pump, PumpRuns.Drop(i));
    OneMore(j.bus, BusRuns.Drop(j.subs[i]));
    RemoveDistinct(j.subs, i);
    forall l: nat | l < |after.subs|
      ensures Mirrors(after.bus, after.pump.receivers[l], after.subs[l])
    {
      RemovedAt(j.subs, i, l);
      RemovedAt(j.pump.receivers, i, l);
      var m := if l < i then l else l + 1;
      assert Mirrors(j.bus, j.pump.receivers[m], j.subs[m]);
      StillMirrors(j.bus, after.bus, j.pump.receivers[m], j.subs[m]);
    }
  }

  lemma OpenInStep(j: Joint, p: string)
    requires InStep(j) && PumpRuns.Enabled(j.pump, PumpRuns.Open(p))
    ensures InStep(Next(j, Pump(PumpRuns.Open(p))))
  {
    var after, n := Next(j, Pump(PumpRuns.Open(p))), |j.subs|;
    OnePumpStep(j.pump, PumpRuns.Open(p));
    OneMore(j.bus, BusRuns.Subscribe([p], None));
    forall l: nat | l < n
      ensures Mirrors(after.bus, after.pump.receivers[l], after.subs[l]) && after.subs[l] != after.subs[n]
    {
      assert Mirrors(j.bus, j.pump.receivers[l], j.subs[l]);
      StillMirrors(j.bus, after.bus, j.pump.receivers[l], j.subs[l]);
    }
  }

  lemma OtherInStep(j: Joint, t: BusRuns.Step)
    requires InStep(j)
    ensures InStep(Next(j, Other(t)))
  {
    var after := Next(j, Other(t));
    forall i: nat | i < |j.subs|
      ensures j.subs[i] in j.subs && Mirrors(j.bus, j.pump.receivers[i], j.subs[i])
    {
    }
    if BusPart(j, Other(t)) == [t] {
      OneMore(j.bus, t);
    }
    SameReceivers(j, after);
  }

  lemma QuietInStep(j: Joint, t: Step)
    requires InStep(j) && (t.Record? || (t.Pump? && !t.t.Drain? && !t.t.Drop? && !t.t.Open?))
    ensures InStep(Next(j, t))
  {
    forall i: nat | i < |j.subs|
      ensures Mirrors(j.bus, j.pump.receivers[i], j.subs[i])
    {
    }
    if t.Record? {
      OneMore(j.bus, BusRuns.Record(t.event));
    } else if !t.t.Publish? {
      OnePumpStep(j.pump, t.t);
    }
    SameReceivers(j, Next(j, t));
  }

  lemma DisabledInStep(j: Joint, t: PumpRuns.Step)
    requires InStep(j) && !PumpRuns.Enabled(j.pump, t)
    ensures InStep(Next(j, Pump(t)))
  {
    OnePumpStep(j.pump, t);
  }

  lemma NextInStep(j: Joint, t: Step)
    requires InStep(j)
    ensures InStep(Next(j, t))
  {
    match t
    case Distribute(n, blocked) => DistributeInStep(j, n, blocked);
    case Other(b) => OtherInStep(j, b);
    case Record(_) => QuietInStep(j, t);
    case Pump(p) =>
      if !PumpRuns.Enabled(j.pump, p) {
        DisabledInStep(j, p);
      } else {
        match p
        case Drain(i) => DrainInStep(j, i);
        case Drop(i) => DropInStep(j, i);
        case Open(pattern) => OpenInStep(j, pattern);
        case _ => QuietInStep(j, t);
      }
  }

  /** Main result. However the publishers, the pump and the other subscribers interleave, each receiver
      of the pump holds exactly the events its subscription of the bus holds, in that order. */
  lemma {:induction false} ReceiversMirrorTheBus(cap: nat, steps: seq<Step>)
    ensures InStep(Run(cap, steps))
  {
    if steps == [] {
    } else {
      ReceiversMirrorTheBus(cap, steps[..|steps| - 1]);
      NextInStep(Run(cap, steps[..|steps| - 1]), steps[|steps| - 1]);
    }
  }
}
