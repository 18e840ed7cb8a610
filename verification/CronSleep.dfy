/**
 How the cron worker sleeps: what notifies it, what it may sleep through, and when it wakes.
 */
module CronSleep {
  import opened Prelude
  import opened CronScheduler
  import opened CronRuns

  lemma RunSnoc(now: int, steps: seq<Step>, t: Step) returns (after: World)
    ensures after == RunOf(now, steps + [t]) == Next(RunOf(now, steps), t)
  {
    after := RunOf(now, steps + [t]);
    assert (steps + [t])[..|steps|] == steps;
  }

  predicate Sleeping(p: Position) {
    p.Asleep? || p.AsleepEmpty?
  }

  // ----- going to sleep -----

  /** A worker falls asleep on schedules a reload has replaced exactly when none of the schedules it
      swept has a next fire, a reload was installed since that sweep, and there is no shutdown. */
  lemma FallsAsleepBehindExactly(now: int, steps: seq<Step>)
    requires RunOf(now, steps).worker.Parking?
    ensures var w, after := RunOf(now, steps), RunOf(now, steps + [Park]);
            (after.worker.Asleep? && after.worker.generation != after.generation)
            <==> (!w.shutdown && w.worker.horizon.None? && w.generation != w.worker.generation)
  {
    var after := RunSnoc(now, steps, Park);
  }

  /** A worker that falls asleep for a time does so on the schedules in force. It sleeps for as long
      as their earliest next fire was away at the sweep, so never less than until then, and longer
      by what has passed since the sweep. */
  lemma TimedSleepIsCurrent(now: int, steps: seq<Step>)
    requires RunOf(now, steps).worker.Parking? && RunOf(now, steps).worker.horizon.Some?
    requires RunOf(now, steps + [Park]).worker.Asleep?
    ensures var w, after := RunOf(now, steps), RunOf(now, steps + [Park]);
            var horizon := w.worker.horizon.value;
            && after.worker.generation == after.generation
            && Some(horizon) == Horizon(after.schedules)
            && after.worker.until == horizon + (w.now - w.worker.sweptAt) >= horizon
  {
    AlwaysParked(now, steps);
    AlwaysSound(now, steps);
    var after := RunSnoc(now, steps, Park);
  }

  /** Since its sweep the clock did not run backwards, and what it swept is in the future of it. */
  ghost predicate Parked(w: World) {
    w.worker.Parking? ==>
      w.worker.sweptAt <= w.now
      && (w.worker.horizon.Some? ==> w.worker.horizon.value > w.worker.sweptAt)
  }

  lemma SweptHorizonIsLater(cs: seq<Cron>, now: int)
    ensures Horizon(SweptAll(cs, now)).Some? ==> Horizon(SweptAll(cs, now)).value > now
  {
    HorizonIsLeast(SweptAll(cs, now));
  }

  lemma {:induction false} AlwaysParked(now: int, steps: seq<Step>)
    ensures Parked(RunOf(now, steps))
  {
    if steps == [] {
    } else {
      var w, t := RunOf(now, steps[..|steps| - 1]), steps[|steps| - 1];
      AlwaysParked(now, steps[..|steps| - 1]);
      NextParked(w, t);
    }
  }

  lemma NextParked(w: World, t: Step)
    requires Parked(w)
    ensures Parked(Next(w, t))
  {
    SweptHorizonIsLater(w.schedules, w.now);
  }

  // ----- notifications -----

  /** The installs and shutdowns that come while the worker sleeps are exactly those that notify it:
      a sleeper nobody notified has had neither since it went to sleep. */
  ghost predicate NotifiedSound(w: World) {
    && (Sleeping(w.worker) && !w.worker.notified ==> w.worker.parkedIn == w.generation && !w.shutdown)
    && (Sleeping(w.worker) ==> w.worker.parkedIn <= w.generation)
    && (Sleeping(w.worker) && w.worker.notified ==> w.worker.parkedIn < w.generation || w.shutdown)
  }

  lemma NextNotified(w: World, t: Step)
    requires NotifiedSound(w)
    ensures NotifiedSound(Next(w, t))
  {
  }

  lemma {:induction false} AlwaysNotified(now: int, steps: seq<Step>)
    ensures NotifiedSound(RunOf(now, steps))
  {
    if steps == [] {
    } else {
      AlwaysNotified(now, steps[..|steps| - 1]);
      NextNotified(RunOf(now, steps[..|steps| - 1]), steps[|steps| - 1]);
    }
  }

  /** After every run: a sleeper is notified exactly when a reload or the shutdown came after it went
      to sleep. So a reload that a sleeper was not told of is one installed before it parked. */
  lemma NotifiedExactly(now: int, steps: seq<Step>)
    requires Sleeping(RunOf(now, steps).worker)
    ensures var w := RunOf(now, steps); w.worker.notified <==> w.worker.parkedIn != w.generation || w.shutdown
  {
    AlwaysNotified(now, steps);
  }

  /** A reload installed while the worker sleeps wakes it, and its next sweep is of the new
      schedules. */
  lemma ReloadWakesSleeper(now: int, steps: seq<Step>, parsed: seq<Option<Parsed>>)
    requires Sleeping(RunOf(now, steps).worker) && !RunOf(now, steps).shutdown
    requires Enabled(RunOf(now, steps), Install(parsed))
    ensures var installed := RunOf(now, steps + [Install(parsed)]);
            var woken := RunOf(now, steps + [Install(parsed)] + [Wake]);
            && Enabled(installed, Wake)
            && woken.worker.Top? && woken.schedules == Compiled(parsed)
            && woken.generation == RunOf(now, steps).generation + 1
  {
    var installed := RunSnoc(now, steps, Install(parsed));
    var woken := RunSnoc(now, steps + [Install(parsed)], Wake);
  }

  // ----- staying asleep -----

  predicate Disturbs(t: Step) {
    t.Install? || t.Shutdown? || t.WakeSpuriously?
  }

  lemma {:induction false} ClockAdvances(now: int, steps: seq<Step>, more: seq<Step>)
    ensures RunOf(now, steps).now <= RunOf(now, steps + more).now
  {
    if more == [] {
      assert steps + more == steps;
    } else {
      var shorter := more[..|more| - 1];
      ClockAdvances(now, steps, shorter);
      assert (steps + more)[..|steps + more| - 1] == steps + shorter;
    }
  }

  /** A sleeper nobody notified stays asleep: one with a time until that time has come, one without
      for good, whatever else happens, unless it is disturbed. */
  lemma {:induction false} SleepsOn(now: int, steps: seq<Step>, more: seq<Step>)
    requires RunOf(now, steps).worker.Asleep? && !RunOf(now, steps).worker.notified
    requires forall k :: 0 <= k < |more| ==> !Disturbs(more[k])
    requires RunOf(now, steps).worker.horizon.Some? ==>
               RunOf(now, steps + more).now < RunOf(now, steps).worker.until
    ensures RunOf(now, steps + more).worker == RunOf(now, steps).worker
  {
    if more == [] {
      assert steps + more == steps;
    } else {
      var shorter, t := more[..|more| - 1], more[|more| - 1];
      assert (steps + more)[..|steps + more| - 1] == steps + shorter;
      ClockAdvances(now, steps + shorter, [t]);
      assert steps + shorter + [t] == steps + more;
      SleepsOn(now, steps, shorter);
      StepLeavesAsleep(RunOf(now, steps + shorter), t);
    }
  }

  lemma StepLeavesAsleep(w: World, t: Step)
    requires w.worker.Asleep? && !w.worker.notified && !Disturbs(t)
    requires w.worker.horizon.Some? ==> w.now < w.worker.until
    ensures Next(w, t).worker == w.worker
  {
  }

  // ----- two concrete runs -----

  function Continue(w: World, steps: seq<Step>): World
    decreases |steps|
  {
    if steps == [] then w else Continue(Next(w, steps[0]), steps[1..])
  }

  lemma {:induction false} RunContinues(now: int, before: seq<Step>, after: seq<Step>)
    ensures RunOf(now, before + after) == Continue(RunOf(now, before), after)
    decreases |after|
  {
    if after == [] {
      assert before + after == before;
    } else {
      var w := RunSnoc(now, before, after[0]);
      RunContinues(now, before + [after[0]], after[1..]);
      assert before + [after[0]] + after[1..] == before + after;
    }
  }

  lemma ThreeSteps(w: World, a: Step, b: Step, c: Step)
    ensures Continue(w, [a, b, c]) == Next(Next(Next(w, a), b), c)
  {
    assert [a, b, c][1..] == [b, c] && [b, c][1..] == [c];
    assert Continue(Next(Next(w, a), b), [c]) == Next(Next(Next(w, a), b), c);
  }

  lemma CompiledOne(p: Parsed)
    ensures Compiled([Some(p)]) == [Compile(p.schedule, p.readAt)]
  {
    assert Compiled([]) + [Compile(p.schedule, p.readAt)] == [Compile(p.schedule, p.readAt)];
  }

  /** Three steps into a fresh run: a schedule is installed, the clock moves on, the worker sweeps. */
  lemma InstallAndSweep(p: Parsed, to: int)
    requires p.readAt <= 0 <= to
    ensures RunOf(0, [Install([Some(p)]), Tick(to), SweepStep])
            == Sweeping(World(to, [Compile(p.schedule, p.readAt)], false, 1, [], [], Top))
  {
    var steps := [Install([Some(p)]), Tick(to), SweepStep];
    RunContinues(0, [], steps);
    assert [] + steps == steps;
    ThreeSteps(Start(0), Install([Some(p)]), Tick(to), SweepStep);
    CompiledOne(p);
  }

  lemma DormantSweep(w: World, c: Cron)
    requires !w.shutdown && w.schedules == [c] && c.nextFire.None?
    ensures Sweeping(w) == w.(worker := Parking(w.generation, None, w.now))
  {
    assert Decisions([c], w.generation, w.now) == [];
    assert SweptAll([c], w.now) == [c];
    assert Horizon([c]) == None;
    assert w.decided + [] == w.decided;
  }

  lemma ParksBehind(w: World, soon: Parsed, later: int)
    requires w == World(0, w.schedules, false, 1, [], [], Parking(1, None, 0)) && soon.readAt <= 0 <= later
    ensures Continue(w, [Install([Some(soon)]), Park, Tick(later)])
            == World(later, [Compile(soon.schedule, soon.readAt)], false, 2, [], [], Asleep(1, None, 0, 2, false))
  {
    ThreeSteps(w, Install([Some(soon)]), Park, Tick(later));
    CompiledOne(soon);
  }

  /** The excepted case is real: a reload installed between the sweep of a schedule without a next
      fire and the sleep leaves the worker asleep on schedules it never saw, and it sleeps past the
      new slot. */
  lemma DormantSleepMissesReload(never: Schedule, soon: Schedule, later: int)
    requires never(0) == None && soon(0) == Some(1) && later >= 1
    ensures var steps := [Install([Some(Parsed(never, 0))]), Tick(0), SweepStep]
                         + [Install([Some(Parsed(soon, 0))]), Park, Tick(later)];
            var w := RunOf(0, steps);
            w.worker == Asleep(1, None, 0, 2, false) && w.generation == 2
            && |w.schedules| == 1 && Due(w.schedules[0], w.now) && !Enabled(w, Wake)
  {
    var first := [Install([Some(Parsed(never, 0))]), Tick(0), SweepStep];
    InstallAndSweep(Parsed(never, 0), 0);
    DormantSweep(World(0, [Compile(never, 0)], false, 1, [], [], Top), Compile(never, 0));
    RunContinues(0, first, [Install([Some(Parsed(soon, 0))]), Park, Tick(later)]);
    ParksBehind(RunOf(0, first), Parsed(soon, 0), later);
  }

  lemma DueSweep(c: Cron)
    requires c.nextFire == Some(1) && c.advancedAt == 0
    ensures var after := Sweeping(World(1, [c], false, 1, [], [], Top));
            && after.worker == Firing([0], 1) && |after.decided| == 1 && after.decided[0].slot == 1
            && after.now == 1 && after.generation == 1 && !after.shutdown && after.dispatched == []
  {
    assert [c][..0] == [] && [c][|[c]| - 1] == c;
    var d := Decide(c, 1, 0, 1);
    assert Decisions([], 1, 1) + [d] == [d];
    assert Decisions([c], 1, 1) == [d];
    assert [d][..0] == [] && ToFire([], 0) + [0] == [0];
    assert ToFire([d], 0) == [0];
    assert [] + [d] == [d];
  }

  /** A dispatch can come any time after its slot: the five seconds bound the decision alone, and the
      worker may be held up between its check and the dispatch. */
  lemma DispatchCanBeLate(soon: Schedule, late: nat)
    requires soon(0) == Some(1)
    ensures var steps := [Install([Some(Parsed(soon, 0))]), Tick(1), SweepStep] + [Check, Tick(1 + late), Dispatch];
            var w := RunOf(0, steps);
            && |w.decided| == 1 && w.decided[0].fire && w.dispatched == [Shot(0, 1, 1 + late)]
            && w.dispatched[0].at - w.decided[0].slot == late
  {
    var first := [Install([Some(Parsed(soon, 0))]), Tick(1), SweepStep];
    InstallAndSweep(Parsed(soon, 0), 1);
    DueSweep(Compile(soon, 0));
    RunContinues(0, first, [Check, Tick(1 + late), Dispatch]);
    ThreeSteps(RunOf(0, first), Check, Tick(1 + late), Dispatch);
    AlwaysSound(0, first);
    var w := RunOf(0, first);
    assert DecisionSound(w, w.decided[0]);
    assert [] + [Shot(0, 1, 1 + late)] == [Shot(0, 1, 1 + late)];
  }
}
