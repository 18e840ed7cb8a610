/**
 The cron worker under every schedule of clock ticks, reloads and shutdown. The worker's round is
 cut at its lock sections: sweep, a generation check before each dispatch, the dispatch itself, and
 parking. The clock never runs backwards.
 */
module CronRuns {
  import opened Prelude
  import opened CronScheduler

  /** Where the worker is. Outside the lock it remembers the generation of its sweep. A sleeper is
      notified or not; `until` is when a timed sleep ends, and `parkedIn` the generation in force
      when it went to sleep. */
  datatype Position =
    | Top
    | Firing(batch: seq<nat>, generation: nat)
    | Cleared(batch: seq<nat>, generation: nat)
    | Parking(generation: nat, horizon: Option<int>, sweptAt: int)
    | Asleep(generation: nat, horizon: Option<int>, until: int, parkedIn: nat, notified: bool)
    | AsleepEmpty(parkedIn: nat, notified: bool)
    | Exited

  /** A dispatch: the number of its decision, the generation of the sweep that decided it, and when
      it was made. */
  datatype Shot = Shot(id: nat, generation: nat, at: int)

  datatype World = World(
    now: int, schedules: seq<Cron>, shutdown: bool, generation: nat,
    decided: seq<Decision>, dispatched: seq<Shot>, worker: Position)

  function Start(now: int): World {
    World(now, [], false, 0, [], [], Top)
  }

  datatype Step =
    | Tick(to: int)
    | Install(parsed: seq<Option<Parsed>>)
    | Shutdown
    | SweepStep
    | Check
    | Dispatch
    | Park
    | Wake
    | WakeSpuriously

  /** What notifying everyone does to the worker: it reaches a sleeper and no one else. */
  function Notified(p: Position): Position {
    if p.Asleep? || p.AsleepEmpty? then p.(notified := true) else p
  }

  function Sweeping(w: World): World {
    if w.shutdown then w.(worker := Exited)
    else if w.schedules == [] then w.(worker := AsleepEmpty(w.generation, false))
    else
      var ds := Decisions(w.schedules, w.generation, w.now);
      var after := SweptAll(w.schedules, w.now);
      w.(schedules := after,
         decided := w.decided + ds,
         worker := if ds == [] then Parking(w.generation, Horizon(after), w.now)
                   else Firing(ToFire(ds, |w.decided|), w.generation))
  }

  function Checking(w: World): World
    requires w.worker.Firing?
  {
    if w.worker.batch == [] then w.(worker := Top)
    else if w.shutdown then w.(worker := Exited)
    else if w.generation != w.worker.generation then w.(worker := Top)
    else w.(worker := Cleared(w.worker.batch, w.worker.generation))
  }

  /** How long a timed sleep lasts was computed at the sweep; a negative time counts as none. */
  function SleepUntil(w: World): int
    requires w.worker.Parking?
  {
    if w.worker.horizon.None? || w.worker.horizon.value <= w.worker.sweptAt then w.now
    else w.now + (w.worker.horizon.value - w.worker.sweptAt)
  }

  /** Only a timed sleep compares the generation first. */
  function ParkingDone(w: World): World
    requires w.worker.Parking?
  {
    if w.shutdown then w.(worker := Exited)
    else if w.worker.horizon.Some? && w.generation != w.worker.generation then w.(worker := Top)
    else w.(worker := Asleep(w.worker.generation, w.worker.horizon, SleepUntil(w), w.generation, false))
  }

  predicate Enabled(w: World, t: Step) {
    match t
    case Tick(to) => to >= w.now
    case Install(parsed) =>
      forall i :: 0 <= i < |parsed| && parsed[i].Some? ==> parsed[i].value.readAt <= w.now
    case Shutdown => true
    case SweepStep => w.worker.Top?
    case Check => w.worker.Firing?
    case Dispatch => w.worker.Cleared? && w.worker.batch != []
    case Park => w.worker.Parking?
    case Wake =>
      (w.worker.Asleep? && (w.worker.notified || (w.worker.horizon.Some? && w.now >= w.worker.until)))
      || (w.worker.AsleepEmpty? && w.worker.notified)
    case WakeSpuriously => w.worker.Asleep? || w.worker.AsleepEmpty?
  }

  function Woken(w: World): World {
    w.(worker := if w.shutdown then Exited else Top)
  }

  function Next(w: World, t: Step): World {
    if !Enabled(w, t) then w
    else
      match t
      case Tick(to) => w.(now := to)
      case Install(parsed) =>
        w.(schedules := Compiled(parsed), generation := w.generation + 1, worker := Notified(w.worker))
      case Shutdown => w.(shutdown := true, worker := Notified(w.worker))
      case SweepStep => Sweeping(w)
      case Check => Checking(w)
      case Dispatch =>
        w.(dispatched := w.dispatched + [Shot(w.worker.batch[0], w.worker.generation, w.now)],
           worker := Firing(w.worker.batch[1..], w.worker.generation))
      case Park => ParkingDone(w)
      case Wake => Woken(w)
      case WakeSpuriously => Woken(w)
  }

  function RunOf(now: int, steps: seq<Step>): World {
    if steps == [] then Start(now) else Next(RunOf(now, steps[..|steps| - 1]), steps[|steps| - 1])
  }

  // ----- what one sweep decides -----

  ghost predicate DecidesFor(d: Decision, cs: seq<Cron>, generation: nat, now: int) {
    && d.k < |cs| && Due(cs[d.k], now)
    && d == Decide(cs[d.k], generation, d.k, now)
  }

  lemma {:induction false} SweepDecides(cs: seq<Cron>, generation: nat, now: int, i: nat)
    requires i < |Decisions(cs, generation, now)|
    ensures DecidesFor(Decisions(cs, generation, now)[i], cs, generation, now)
  {
    var before := cs[..|cs| - 1];
    if i < |Decisions(before, generation, now)| {
      SweepDecides(before, generation, now, i);
      var d := Decisions(before, generation, now)[i];
      assert before[d.k] == cs[d.k];
    }
  }

  lemma {:induction false} SweepDecidesOnce(cs: seq<Cron>, generation: nat, now: int, i: nat, j: nat)
    requires i < j < |Decisions(cs, generation, now)|
    ensures Decisions(cs, generation, now)[i].k < Decisions(cs, generation, now)[j].k
  {
    var before := cs[..|cs| - 1];
    if j < |Decisions(before, generation, now)| {
      SweepDecidesOnce(before, generation, now, i, j);
    } else {
      SweepDecides(before, generation, now, i);
    }
  }

  ghost predicate Rising(ids: seq<nat>) {
    forall i, j :: 0 <= i < j < |ids| ==> ids[i] < ids[j]
  }

  lemma RisingSnoc(ids: seq<nat>, next: nat)
    requires Rising(ids) && forall id :: id in ids ==> id < next
    ensures Rising(ids + [next])
  {
    forall i | 0 <= i < |ids|
      ensures ids[i] < next
    {
      assert ids[i] in ids;
    }
  }

  lemma {:induction false} FireNumbers(ds: seq<Decision>, base: nat)
    ensures Rising(ToFire(ds, base))
    ensures forall id :: id in ToFire(ds, base) ==> base <= id < base + |ds| && ds[id - base].fire
  {
    if ds == [] {
    } else {
      var before := ds[..|ds| - 1];
      FireNumbers(before, base);
      RisingSnoc(ToFire(before, base), base + |ds| - 1);
    }
  }

  // ----- what every step keeps -----

  ghost predicate CronSound(c: Cron, now: int) {
    c.nextFire == c.schedule(c.advancedAt) && c.advancedAt <= now
  }

  /** A decision fires exactly when its slot is within the grace, and never ahead of time. */
  ghost predicate DecisionSound(w: World, d: Decision) {
    && d.generation <= w.generation
    && d.slot <= d.at <= w.now
    && (d.fire <==> d.at - GRACE <= d.slot)
    && d.schedule(d.since) == Some(d.slot)
    && (d.generation == w.generation ==> d.k < |w.schedules| && d.at <= w.schedules[d.k].advancedAt)
  }

  predicate SameSchedule(a: Decision, b: Decision) {
    a.generation == b.generation && a.k == b.k
  }

  ghost predicate StateSound(w: World) {
    && (forall k :: 0 <= k < |w.schedules| ==> CronSound(w.schedules[k], w.now))
    && (forall i :: 0 <= i < |w.decided| ==> DecisionSound(w, w.decided[i]))
    && (forall i, j :: 0 <= i < j < |w.decided| && SameSchedule(w.decided[i], w.decided[j]) ==>
          w.decided[i].at < w.decided[j].slot)
  }

  /** No decision of the same schedule lies strictly between. */
  ghost predicate Adjacent(ds: seq<Decision>, i: int, j: int)
    requires 0 <= i < j <= |ds|
  {
    forall m :: i < m < j ==> !SameSchedule(ds[i], ds[m])
  }

  /** Each decision starts from the moment of the one before it, and the schedule in force from the
      moment of its latest decision. */
  ghost predicate ChainSound(w: World) {
    var ds := w.decided;
    && (forall i, j :: 0 <= i < j < |ds| && SameSchedule(ds[i], ds[j]) && Adjacent(ds, i, j) ==>
          ds[j].since == ds[i].at && ds[j].schedule == ds[i].schedule)
    && (forall i :: 0 <= i < |ds| && Latest(w, i) ==>
          var c := w.schedules[ds[i].k];
          c.advancedAt == ds[i].at && c.schedule == ds[i].schedule)
  }

  /** Decision `i` is the latest of a schedule in force. */
  ghost predicate Latest(w: World, i: nat)
    requires i < |w.decided|
  {
    var d := w.decided[i];
    d.generation == w.generation && d.k < |w.schedules| && Adjacent(w.decided, i, |w.decided|)
  }

  function Batch(p: Position): seq<nat> {
    if p.Firing? || p.Cleared? then p.batch else []
  }

  function Ids(shots: seq<Shot>): seq<nat> {
    seq(|shots|, i requires 0 <= i < |shots| => shots[i].id)
  }

  /** The decision numbered `id` is one to fire, of this generation. */
  predicate IsToFire(decided: seq<Decision>, id: nat, generation: nat) {
    id < |decided| && decided[id].fire && decided[id].generation == generation
  }

  /** What was dispatched, and what is about to be, are decisions to fire, each once and in order. */
  ghost predicate ShotsSound(w: World) {
    && Rising(Ids(w.dispatched) + Batch(w.worker))
    && (forall s :: s in w.dispatched ==> IsToFire(w.decided, s.id, s.generation))
    && (forall id :: id in Batch(w.worker) ==> IsToFire(w.decided, id, w.worker.generation))
  }

  /** No dispatch comes before its decision, nor is from the future. */
  ghost predicate ShotsTimely(w: World) {
    forall s :: s in w.dispatched ==> s.id < |w.decided| && w.decided[s.id].at <= s.at <= w.now
  }

  /** What is to fire in this generation is dispatched or about to be, unless the worker has left. */
  ghost predicate FiresSound(w: World) {
    !w.worker.Exited? ==>
      forall id: nat :: IsToFire(w.decided, id, w.generation) ==> id in Ids(w.dispatched) || id in Batch(w.worker)
  }

  /** A worker about to sleep knows the earliest next fire unless a reload has intervened. */
  ghost predicate ParkSound(w: World) {
    w.worker.Parking? ==>
      w.worker.generation <= w.generation
      && (w.worker.generation == w.generation ==> w.worker.horizon == Horizon(w.schedules))
  }

  lemma {:induction false} CompiledSound(parsed: seq<Option<Parsed>>, now: int)
    requires forall i :: 0 <= i < |parsed| && parsed[i].Some? ==> parsed[i].value.readAt <= now
    ensures forall k :: 0 <= k < |Compiled(parsed)| ==> CronSound(Compiled(parsed)[k], now)
  {
    if parsed == [] {
    } else {
      CompiledSound(parsed[..|parsed| - 1], now);
    }
  }

  lemma SweptSound(w: World, d: Decision)
    requires StateSound(w) && DecidesFor(d, w.schedules, w.generation, w.now)
    ensures DecisionSound(w.(schedules := SweptAll(w.schedules, w.now)), d)
    ensures forall i :: 0 <= i < |w.decided| && SameSchedule(w.decided[i], d) ==> w.decided[i].at < d.slot
  {
    var c := w.schedules[d.k];
    assert CronSound(c, w.now);
    forall i | 0 <= i < |w.decided| && SameSchedule(w.decided[i], d)
      ensures w.decided[i].at < d.slot
    {
      assert DecisionSound(w, w.decided[i]);
    }
  }

  lemma SweepDecisionSound(w: World, ds: seq<Decision>, i: nat)
    requires StateSound(w) && ds == Decisions(w.schedules, w.generation, w.now)
    requires i < |w.decided + ds|
    ensures DecisionSound(w.(schedules := SweptAll(w.schedules, w.now)), (w.decided + ds)[i])
  {
    if i < |w.decided| {
      assert DecisionSound(w, w.decided[i]);
    } else {
      SweepDecides(w.schedules, w.generation, w.now, i - |w.decided|);
      SweptSound(w, ds[i - |w.decided|]);
    }
  }

  lemma SweptCronsSound(cs: seq<Cron>, now: int)
    requires forall k :: 0 <= k < |cs| ==> CronSound(cs[k], now)
    ensures forall k :: 0 <= k < |SweptAll(cs, now)| ==> CronSound(SweptAll(cs, now)[k], now)
  {
  }

  lemma SweepStateSound(w: World)
    requires StateSound(w)
    ensures StateSound(Sweeping(w))
  {
    if !w.shutdown && w.schedules != [] {
      var after := Sweeping(w);
      var ds := Decisions(w.schedules, w.generation, w.now);
      SweptCronsSound(w.schedules, w.now);
      forall i | 0 <= i < |after.decided|
        ensures DecisionSound(after, after.decided[i])
      {
        SweepDecisionSound(w, ds, i);
      }
      forall i, j | 0 <= i < j < |after.decided| && SameSchedule(after.decided[i], after.decided[j])
        ensures after.decided[i].at < after.decided[j].slot
      {
        SweepOrdered(w, ds, i, j);
      }
    } else {
      SameStateSound(w, Sweeping(w));
    }
  }

  lemma SweepOrdered(w: World, ds: seq<Decision>, i: nat, j: nat)
    requires StateSound(w) && ds == Decisions(w.schedules, w.generation, w.now)
    requires i < j < |w.decided + ds| && SameSchedule((w.decided + ds)[i], (w.decided + ds)[j])
    ensures (w.decided + ds)[i].at < (w.decided + ds)[j].slot
  {
    if |w.decided| <= i {
      SweepDecidesOnce(w.schedules, w.generation, w.now, i - |w.decided|, j - |w.decided|);
    } else if |w.decided| <= j {
      SweepDecides(w.schedules, w.generation, w.now, j - |w.decided|);
      SweptSound(w, ds[j - |w.decided|]);
    }
  }

  lemma NextStateSound(w: World, t: Step)
    requires StateSound(w)
    ensures StateSound(Next(w, t))
  {
    if Enabled(w, t) {
      match t
      case SweepStep => SweepStateSound(w);
      case Install(parsed) => InstallStateSound(w, parsed);
      case Tick(to) => TickStateSound(w, to);
      case _ => SameStateSound(w, Next(w, t));
    }
  }

  lemma SameStateSound(w: World, after: World)
    requires StateSound(w)
    requires after.now == w.now && after.schedules == w.schedules
    requires after.generation == w.generation && after.decided == w.decided
    ensures StateSound(after)
  {
    forall i | 0 <= i < |after.decided|
      ensures DecisionSound(after, after.decided[i])
    {
      assert DecisionSound(w, w.decided[i]);
    }
  }

  lemma InstallStateSound(w: World, parsed: seq<Option<Parsed>>)
    requires StateSound(w) && Enabled(w, Install(parsed))
    ensures StateSound(Next(w, Install(parsed)))
  {
    CompiledSound(parsed, w.now);
    var after := Next(w, Install(parsed));
    forall i | 0 <= i < |after.decided|
      ensures DecisionSound(after, after.decided[i])
    {
      assert DecisionSound(w, w.decided[i]);
    }
  }

  lemma TickStateSound(w: World, to: int)
    requires StateSound(w) && to >= w.now
    ensures StateSound(w.(now := to))
  {
    var after := w.(now := to);
    forall i | 0 <= i < |after.decided|
      ensures DecisionSound(after, after.decided[i])
    {
      assert DecisionSound(w, w.decided[i]);
    }
    forall k | 0 <= k < |after.schedules|
      ensures CronSound(after.schedules[k], to)
    {
      assert CronSound(w.schedules[k], w.now);
    }
  }

  lemma AdjacentPrefix(ds: seq<Decision>, more: seq<Decision>, i: nat, j: nat)
    requires i < |ds| <= j <= |ds + more| && Adjacent(ds + more, i, j)
    ensures Adjacent(ds, i, |ds|)
  {
    forall m | i < m < |ds|
      ensures !SameSchedule(ds[i], ds[m])
    {
      assert (ds + more)[m] == ds[m] && (ds + more)[i] == ds[i];
    }
  }

  /** A new decision starts where the latest one of its schedule left off. */
  lemma SweepContinues(w: World, ds: seq<Decision>, i: nat, j: nat)
    requires StateSound(w) && ChainSound(w) && ds == Decisions(w.schedules, w.generation, w.now)
    requires i < j < |w.decided + ds| && SameSchedule((w.decided + ds)[i], (w.decided + ds)[j])
    requires Adjacent(w.decided + ds, i, j)
    ensures (w.decided + ds)[j].since == (w.decided + ds)[i].at
    ensures (w.decided + ds)[j].schedule == (w.decided + ds)[i].schedule
  {
    var all := w.decided + ds;
    if j < |w.decided| {
      assert all[i] == w.decided[i] && all[j] == w.decided[j];
      assert Adjacent(w.decided, i, j) by {
        forall m | i < m < j
          ensures !SameSchedule(w.decided[i], w.decided[m])
        {
          assert all[m] == w.decided[m];
        }
      }
    } else if i < |w.decided| {
      SweepDecides(w.schedules, w.generation, w.now, j - |w.decided|);
      AdjacentPrefix(w.decided, ds, i, j);
    } else {
      SweepDecidesOnce(w.schedules, w.generation, w.now, i - |w.decided|, j - |w.decided|);
    }
  }

  lemma {:induction false} DueIsDecided(cs: seq<Cron>, generation: nat, now: int, k: nat) returns (i: nat)
    requires k < |cs| && Due(cs[k], now)
    ensures i < |Decisions(cs, generation, now)| && Decisions(cs, generation, now)[i].k == k
    ensures Decisions(cs, generation, now)[i].generation == generation
  {
    var before := cs[..|cs| - 1];
    if k == |cs| - 1 {
      i := |Decisions(before, generation, now)|;
    } else {
      i := DueIsDecided(before, generation, now, k);
    }
  }

  /** After a sweep the schedule in force again starts from its latest decision. */
  lemma SweepLeavesOff(w: World, ds: seq<Decision>, i: nat)
    requires StateSound(w) && ChainSound(w) && ds == Decisions(w.schedules, w.generation, w.now)
    requires i < |w.decided + ds| && (w.decided + ds)[i].generation == w.generation
    requires (w.decided + ds)[i].k < |w.schedules| && Adjacent(w.decided + ds, i, |w.decided + ds|)
    ensures var c := SweptAll(w.schedules, w.now)[(w.decided + ds)[i].k];
            c.advancedAt == (w.decided + ds)[i].at && c.schedule == (w.decided + ds)[i].schedule
  {
    var all := w.decided + ds;
    if |w.decided| <= i {
      SweepDecides(w.schedules, w.generation, w.now, i - |w.decided|);
    } else {
      AdjacentPrefix(w.decided, ds, i, |all|);
      if Due(w.schedules[all[i].k], w.now) {
        var m := DueIsDecided(w.schedules, w.generation, w.now, all[i].k);
        assert all[|w.decided| + m] == ds[m] && SameSchedule(all[i], ds[m]);
      }
    }
  }

  lemma SweepChainSound(w: World)
    requires StateSound(w) && ChainSound(w)
    ensures ChainSound(Sweeping(w))
  {
    var after := Sweeping(w);
    var ds := Decisions(w.schedules, w.generation, w.now);
    if !w.shutdown && w.schedules != [] {
      forall i, j | 0 <= i < j < |after.decided| && SameSchedule(after.decided[i], after.decided[j])
                    && Adjacent(after.decided, i, j)
        ensures after.decided[j].since == after.decided[i].at
                && after.decided[j].schedule == after.decided[i].schedule
      {
        SweepContinues(w, ds, i, j);
      }
      forall i | 0 <= i < |after.decided| && Latest(after, i)
        ensures var c := after.schedules[after.decided[i].k];
                c.advancedAt == after.decided[i].at && c.schedule == after.decided[i].schedule
      {
        SweepLeavesOff(w, ds, i);
      }
    }
  }

  lemma InstallChainSound(w: World, parsed: seq<Option<Parsed>>)
    requires StateSound(w) && ChainSound(w) && Enabled(w, Install(parsed))
    ensures ChainSound(Next(w, Install(parsed)))
  {
    forall i | 0 <= i < |w.decided|
      ensures w.decided[i].generation <= w.generation
    {
      assert DecisionSound(w, w.decided[i]);
    }
  }

  lemma SameChainSound(w: World, after: World)
    requires ChainSound(w)
    requires after.schedules == w.schedules && after.generation == w.generation && after.decided == w.decided
    ensures ChainSound(after)
  {
    forall i | 0 <= i < |after.decided| && Latest(after, i)
      ensures var c := after.schedules[after.decided[i].k];
              c.advancedAt == after.decided[i].at && c.schedule == after.decided[i].schedule
    {
      assert Latest(w, i);
    }
  }

  lemma NextChainSound(w: World, t: Step)
    requires StateSound(w) && ChainSound(w)
    ensures ChainSound(Next(w, t))
  {
    if Enabled(w, t) {
      match t
      case SweepStep => SweepChainSound(w);
      case Install(parsed) => InstallChainSound(w, parsed);
      case _ => SameChainSound(w, Next(w, t));
    }
  }

  lemma BatchToFire(decided: seq<Decision>, ds: seq<Decision>, generation: nat)
    requires forall i :: 0 <= i < |ds| ==> ds[i].generation == generation
    ensures forall id :: id in ToFire(ds, |decided|) ==> IsToFire(decided + ds, id, generation)
  {
  }

  lemma NewNumbersRise(w: World)
    requires forall s :: s in w.dispatched ==> IsToFire(w.decided, s.id, s.generation)
    requires Rising(Ids(w.dispatched))
    ensures Rising(Ids(w.dispatched) + ToFire(Decisions(w.schedules, w.generation, w.now), |w.decided|))
  {
    var ds := Decisions(w.schedules, w.generation, w.now);
    FireNumbers(ds, |w.decided|);
    forall i | 0 <= i < |w.dispatched|
      ensures Ids(w.dispatched)[i] < |w.decided|
    {
      assert w.dispatched[i] in w.dispatched;
    }
    RisingConcat(Ids(w.dispatched), ToFire(ds, |w.decided|), |w.decided|);
  }

  lemma SweepShotsSound(w: World)
    requires ShotsSound(w) && w.worker.Top?
    ensures ShotsSound(Sweeping(w))
  {
    var after := Sweeping(w);
    if after.worker.Firing? {
      assert Ids(w.dispatched) + [] == Ids(w.dispatched);
      NewNumbersRise(w);
      var ds := Decisions(w.schedules, w.generation, w.now);
      forall i | 0 <= i < |ds|
        ensures ds[i].generation == w.generation
      {
        SweepDecides(w.schedules, w.generation, w.now, i);
      }
      BatchToFire(w.decided, ds, w.generation);
    } else {
      assert Batch(after.worker) == Batch(w.worker);
    }
  }

  lemma RisingConcat(a: seq<nat>, b: seq<nat>, mid: nat)
    requires Rising(a) && Rising(b)
    requires forall i :: 0 <= i < |a| ==> a[i] < mid
    requires forall id :: id in b ==> mid <= id
    ensures Rising(a + b)
  {
    forall i, j | 0 <= i < j < |a + b|
      ensures (a + b)[i] < (a + b)[j]
    {
      if i < |a| <= j {
        assert b[j - |a|] in b;
      }
    }
  }

  lemma DispatchShotsSound(w: World)
    requires ShotsSound(w) && Enabled(w, Dispatch)
    ensures ShotsSound(Next(w, Dispatch))
  {
    var batch := w.worker.batch;
    var shot := Shot(batch[0], w.worker.generation, w.now);
    assert Ids(w.dispatched + [shot]) == Ids(w.dispatched) + [batch[0]];
    assert Ids(w.dispatched + [shot]) + batch[1..] == Ids(w.dispatched) + batch;
    assert batch[0] in batch;
  }

  lemma CheckShotsSound(w: World)
    requires ShotsSound(w) && w.worker.Firing?
    ensures ShotsSound(Checking(w))
  {
    var ids := Ids(w.dispatched);
    assert (ids + Batch(w.worker))[..|ids|] == ids + [];
    if Batch(Checking(w).worker) == [] {
      assert Rising(ids + []) by {
        assert forall i :: 0 <= i < |ids| ==> (ids + [])[i] == (ids + Batch(w.worker))[i];
      }
    }
  }

  lemma NextShotsSound(w: World, t: Step)
    requires ShotsSound(w)
    ensures ShotsSound(Next(w, t))
  {
    if Enabled(w, t) {
      match t
      case SweepStep => SweepShotsSound(w);
      case Dispatch => DispatchShotsSound(w);
      case Check => CheckShotsSound(w);
      case _ => assert Batch(Next(w, t).worker) == Batch(w.worker);
    }
  }

  // ----- nothing to fire is forgotten -----

  lemma {:induction false} FireNumbersAll(ds: seq<Decision>, base: nat, k: nat)
    requires k < |ds| && ds[k].fire
    ensures base + k in ToFire(ds, base)
  {
    if k == |ds| - 1 {
    } else {
      FireNumbersAll(ds[..|ds| - 1], base, k);
    }
  }

  lemma SweepFiresSound(w: World)
    requires FiresSound(w) && w.worker.Top?
    ensures FiresSound(Sweeping(w))
  {
    var after, ds := Sweeping(w), Decisions(w.schedules, w.generation, w.now);
    if !after.worker.Exited? {
      forall id: nat | IsToFire(after.decided, id, w.generation)
        ensures id in Ids(after.dispatched) || id in Batch(after.worker)
      {
        if id < |w.decided| {
          assert IsToFire(w.decided, id, w.generation);
        } else {
          FireNumbersAll(ds, |w.decided|, id - |w.decided|);
        }
      }
    }
  }

  /** A batch given up because of a reload holds nothing to fire in the new generation. */
  lemma CheckFiresSound(w: World)
    requires FiresSound(w) && ShotsSound(w) && w.worker.Firing?
    ensures FiresSound(Checking(w))
  {
    if w.worker.generation != w.generation {
      forall id | id in w.worker.batch
        ensures !IsToFire(w.decided, id, w.generation)
      {
        assert IsToFire(w.decided, id, w.worker.generation);
      }
    }
  }

  lemma DispatchFiresSound(w: World)
    requires FiresSound(w) && Enabled(w, Dispatch)
    ensures FiresSound(Next(w, Dispatch))
  {
    var batch, after := w.worker.batch, Next(w, Dispatch);
    assert Ids(after.dispatched) == Ids(w.dispatched) + [batch[0]];
    assert batch == [batch[0]] + batch[1..];
  }

  lemma InstallFiresSound(w: World, parsed: seq<Option<Parsed>>)
    requires StateSound(w)
    ensures FiresSound(Next(w, Install(parsed))) || !Enabled(w, Install(parsed))
  {
    forall id: nat | id < |w.decided|
      ensures w.decided[id].generation <= w.generation
    {
      assert DecisionSound(w, w.decided[id]);
    }
  }

  lemma SameFiresSound(w: World, after: World)
    requires FiresSound(w) && (w.worker.Exited? ==> after.worker.Exited?)
    requires after.decided == w.decided && after.dispatched == w.dispatched && after.generation == w.generation
    requires !after.worker.Exited? ==> Batch(after.worker) == Batch(w.worker)
    ensures FiresSound(after)
  {
  }

  lemma NextFiresSound(w: World, t: Step)
    requires FiresSound(w) && StateSound(w) && ShotsSound(w)
    ensures FiresSound(Next(w, t))
  {
    if Enabled(w, t) {
      match t
      case SweepStep => SweepFiresSound(w);
      case Check => CheckFiresSound(w);
      case Dispatch => DispatchFiresSound(w);
      case Install(parsed) => InstallFiresSound(w, parsed);
      case _ => SameFiresSound(w, Next(w, t));
    }
  }

  lemma NextShotsTimely(w: World, t: Step)
    requires ShotsTimely(w) && StateSound(w) && ShotsSound(w)
    ensures ShotsTimely(Next(w, t))
  {
    if Enabled(w, t) && t.Dispatch? {
      var id := w.worker.batch[0];
      assert id in Batch(w.worker);
      assert DecisionSound(w, w.decided[id]);
    }
  }

  ghost predicate Sound(w: World) {
    StateSound(w) && ChainSound(w) && ShotsSound(w) && ParkSound(w) && ShotsTimely(w) && FiresSound(w)
  }

  lemma NextSound(w: World, t: Step)
    requires Sound(w)
    ensures Sound(Next(w, t))
  {
    NextStateSound(w, t);
    NextChainSound(w, t);
    NextShotsSound(w, t);
    NextShotsTimely(w, t);
    NextFiresSound(w, t);
  }

  lemma {:induction false} AlwaysSound(now: int, steps: seq<Step>)
    ensures Sound(RunOf(now, steps))
  {
    if steps == [] {
    } else {
      AlwaysSound(now, steps[..|steps| - 1]);
      NextSound(RunOf(now, steps[..|steps| - 1]), steps[|steps| - 1]);
    }
  }

  // ----- the results -----

  /** Between reloads the slots decided for one schedule strictly increase, each lying after the
      moment of the decision before it; when no decision lies between, it is the very first slot
      after that moment, so none is passed over. A slot is decided to be fired exactly when it is at
      most five seconds old, never before its time, and to be skipped otherwise. */
  lemma SlotsStrictlyIncrease(now: int, steps: seq<Step>, i: nat, j: nat)
    requires i < j < |RunOf(now, steps).decided|
    requires SameSchedule(RunOf(now, steps).decided[i], RunOf(now, steps).decided[j])
    ensures var ds := RunOf(now, steps).decided;
            var a, b := ds[i], ds[j];
            && a.slot <= a.at < b.slot <= b.at
            && (Adjacent(ds, i, j) ==> a.schedule == b.schedule && a.schedule(a.at) == Some(b.slot))
            && (a.fire <==> a.at - a.slot <= 5000)
            && (b.fire <==> b.at - b.slot <= 5000)
  {
    AlwaysSound(now, steps);
    var w := RunOf(now, steps);
    assert DecisionSound(w, w.decided[i]);
    assert DecisionSound(w, w.decided[j]);
  }

  /** Whenever the worker has no batch in hand and has not left, every slot decided in the generation
      in force has been dispatched or was skipped, never both: it was dispatched if and only if it
      was at most five seconds old when it was decided. */
  lemma FiredOrSkipped(now: int, steps: seq<Step>, id: nat)
    requires id < |RunOf(now, steps).decided|
    requires RunOf(now, steps).decided[id].generation == RunOf(now, steps).generation
    requires var p := RunOf(now, steps).worker; !p.Firing? && !p.Cleared? && !p.Exited?
    ensures var w := RunOf(now, steps);
            var d := w.decided[id];
            id in Ids(w.dispatched) <==> d.at - d.slot <= 5000
  {
    AlwaysSound(now, steps);
    var w := RunOf(now, steps);
    assert DecisionSound(w, w.decided[id]);
    if id in Ids(w.dispatched) {
      var k :| 0 <= k < |Ids(w.dispatched)| && Ids(w.dispatched)[k] == id;
      assert w.dispatched[k] in w.dispatched;
    }
  }

  /** How much is left of a batch. */
  function Left(p: Position): nat {
    match p
    case Firing(batch, _) => 2 * |batch| + 1
    case Cleared(batch, _) => 2 * |batch|
    case _ => 0
  }

  ghost predicate ClearedSound(w: World) {
    w.worker.Cleared? ==> w.worker.batch != []
  }

  lemma {:induction false} AlwaysCleared(now: int, steps: seq<Step>)
    ensures ClearedSound(RunOf(now, steps))
  {
    if steps == [] {
    } else {
      AlwaysCleared(now, steps[..|steps| - 1]);
    }
  }

  /** A batch in hand gets done: the worker always has its next step, which leaves less of the batch,
      and no other step leaves more. */
  lemma BatchGetsDone(now: int, steps: seq<Step>, t: Step)
    requires RunOf(now, steps).worker.Firing? || RunOf(now, steps).worker.Cleared?
    ensures var w := RunOf(now, steps);
            var own := if w.worker.Firing? then Check else Dispatch;
            && Enabled(w, own) && Left(Next(w, own).worker) < Left(w.worker)
            && Left(Next(w, t).worker) <= Left(w.worker)
  {
    AlwaysCleared(now, steps);
  }

  /** Every dispatch is of a slot that was decided to fire, no decision is dispatched twice, and
      dispatches follow the order of decisions; so a skipped slot is never dispatched, and the slots
      dispatched for one schedule strictly increase between reloads. No dispatch comes before its
      decision. */
  lemma DispatchedOnce(now: int, steps: seq<Step>, i: nat, j: nat)
    requires i <= j < |RunOf(now, steps).dispatched|
    ensures var w := RunOf(now, steps);
            var a, b := w.dispatched[i].id, w.dispatched[j].id;
            && a <= b < |w.decided| && (i < j ==> a < b)
            && w.decided[a].fire && w.decided[a].at <= w.dispatched[i].at <= w.now
            && (i < j && SameSchedule(w.decided[a], w.decided[b]) ==> w.decided[a].slot < w.decided[b].slot)
  {
    AlwaysSound(now, steps);
    var w := RunOf(now, steps);
    var ids := Ids(w.dispatched) + Batch(w.worker);
    assert ids[i] == w.dispatched[i].id && ids[j] == w.dispatched[j].id;
    assert w.dispatched[i] in w.dispatched && w.dispatched[j] in w.dispatched;
    assert DecisionSound(w, w.decided[w.dispatched[i].id]);
  }

  function OlderThan(generation: nat): Shot -> bool {
    (s: Shot) => s.generation < generation
  }

  /** What one dispatch that was already cleared can still add. */
  predicate ClearedStale(w: World, generation: nat) {
    w.worker.Cleared? && w.worker.generation < generation
  }

  lemma NextStale(w: World, t: Step, generation: nat, seen: nat)
    requires w.generation >= generation && seen <= |w.dispatched|
    ensures var after := Next(w, t);
            && after.generation >= generation && seen <= |after.dispatched|
            && Count(after.dispatched[seen..], OlderThan(generation))
               + (if ClearedStale(after, generation) then 1 else 0)
               <= Count(w.dispatched[seen..], OlderThan(generation)) + if ClearedStale(w, generation) then 1 else 0
  {
    if Enabled(w, t) && t.Dispatch? {
      var shot := Shot(w.worker.batch[0], w.worker.generation, w.now);
      assert (w.dispatched + [shot])[seen..] == w.dispatched[seen..] + [shot];
      CountSnoc(w.dispatched[seen..], shot, OlderThan(generation));
    }
  }

  ghost predicate StaleWithin(w: World, after: World) {
    && after.generation >= w.generation && |w.dispatched| <= |after.dispatched|
    && Count(after.dispatched[|w.dispatched|..], OlderThan(w.generation))
       + (if ClearedStale(after, w.generation) then 1 else 0) <= 1
  }

  lemma NextStaleWithin(w: World, mid: World, t: Step)
    requires StaleWithin(w, mid)
    ensures StaleWithin(w, Next(mid, t))
  {
    NextStale(mid, t, w.generation, |w.dispatched|);
  }

  lemma {:induction false} StaleBudget(now: int, steps: seq<Step>, more: seq<Step>)
    ensures StaleWithin(RunOf(now, steps), RunOf(now, steps + more))
  {
    if more == [] {
      assert steps + more == steps;
    } else {
      var shorter := more[..|more| - 1];
      StaleBudget(now, steps, shorter);
      assert (steps + more)[..|steps + more| - 1] == steps + shorter;
      NextStaleWithin(RunOf(now, steps), RunOf(now, steps + shorter), more[|more| - 1]);
    }
  }

  /** Once a reload is installed, at most one dispatch of an older generation still happens. */
  lemma AtMostOneStaleDispatch(now: int, steps: seq<Step>, more: seq<Step>)
    ensures var w, after := RunOf(now, steps), RunOf(now, steps + more);
            && |w.dispatched| <= |after.dispatched|
            && Count(after.dispatched[|w.dispatched|..], OlderThan(w.generation)) <= 1
  {
    StaleBudget(now, steps, more);
  }
}
