/**
 What a reload, a sweep and a shutdown come to for the cron worker, said of the schedules and slots
 themselves.
 */
module CronLaws {
  import opened Prelude
  import opened CronScheduler
  import opened CronRuns
  import opened CronSleep

  // ----- reload and sweep -----

  ghost function Parses(): Option<Parsed> -> bool {
    (o: Option<Parsed>) => o.Some?
  }

  /** The schedules that parse, in order; each one's next fire is the first slot after the moment the
      clock was read for it. */
  lemma {:induction false} CompiledExactly(parsed: seq<Option<Parsed>>)
    ensures var cs, kept := Compiled(parsed), Filter(parsed, Parses());
            |cs| == |kept| && forall k :: 0 <= k < |cs| ==>
              kept[k].Some? && cs[k].schedule == kept[k].value.schedule
              && cs[k].nextFire == kept[k].value.schedule(kept[k].value.readAt)
  {
    if parsed == [] {
    } else {
      var n := |parsed| - 1;
      CompiledExactly(parsed[..n]);
      FilterSnoc(parsed, n, Parses());
      assert parsed[..n + 1] == parsed;
    }
  }

  /** A sweep decides every slot that is due and no other, once: to fire it if it is at most five
      seconds old, and otherwise to skip it. */
  lemma DecidedExactly(cs: seq<Cron>, generation: nat, now: int, d: Decision)
    ensures d in Decisions(cs, generation, now) <==>
            && d.k < |cs| && cs[d.k].nextFire == Some(d.slot) && d.slot <= now
            && d.generation == generation && d.at == now
            && (d.fire <==> now - d.slot <= 5000)
            && d.schedule == cs[d.k].schedule && d.since == cs[d.k].advancedAt
  {
    if d in Decisions(cs, generation, now) {
      var i :| 0 <= i < |Decisions(cs, generation, now)| && Decisions(cs, generation, now)[i] == d;
      SweepDecides(cs, generation, now, i);
    } else if d.k < |cs| && Due(cs[d.k], now) {
      var i := DueIsDecided(cs, generation, now, d.k);
      SweepDecides(cs, generation, now, i);
    }
  }

  /** And each schedule that was due goes on with its first slot after the sweep. */
  lemma AdvancedExactly(cs: seq<Cron>, now: int, k: nat)
    requires k < |cs|
    ensures var c, after := cs[k], SweptAll(cs, now)[k];
            && after.schedule == c.schedule
            && after.nextFire == (if c.nextFire.Some? && c.nextFire.value <= now then c.schedule(now) else c.nextFire)
  {
  }

  /** After a sweep the worker goes to sleep at once exactly when nothing was due; a slot decided, even
      one only skipped, makes it sweep again first. */
  lemma SweepsAgainExactly(w: World)
    requires !w.shutdown && w.schedules != []
    ensures Sweeping(w).worker.Parking? <==>
            forall c :: c in w.schedules ==> c.nextFire.None? || w.now < c.nextFire.value
    ensures !Sweeping(w).worker.Parking? ==> Sweeping(w).worker.Firing?
  {
    var ds := Decisions(w.schedules, w.generation, w.now);
    forall k | 0 <= k < |w.schedules| && Due(w.schedules[k], w.now)
      ensures ds != []
    {
      var i := DueIsDecided(w.schedules, w.generation, w.now, k);
    }
    if ds != [] {
      SweepDecides(w.schedules, w.generation, w.now, 0);
      assert w.schedules[ds[0].k] in w.schedules;
    }
  }

  // ----- waking -----

  /** A sleep with a time ends when the time has come, and the worker sweeps again. */
  lemma WakesInTime(w: World)
    requires w.worker.Asleep? && w.worker.horizon.Some? && w.worker.until <= w.now
    ensures Enabled(w, Wake) && Next(w, Wake).worker == if w.shutdown then Exited else Top
  {
  }

  // ----- shutdown -----

  /** The worker's own next step. */
  function OwnStep(p: Position): Step {
    match p
    case Firing(_, _) => Check
    case Cleared(_, _) => Dispatch
    case Parking(_, _, _) => Park
    case Asleep(_, _, _, _, _) => Wake
    case AsleepEmpty(_, _) => Wake
    case _ => SweepStep
  }

  function FromExit(p: Position): nat {
    match p
    case Exited => 0
    case Firing(_, _) => 2
    case Cleared(_, _) => 3
    case _ => 1
  }

  /** After a shutdown nothing more is decided, and the worker is at most three steps of its own from
      leaving, which no other step puts off. */
  lemma ShutdownEnds(now: int, steps: seq<Step>, t: Step)
    requires RunOf(now, steps).shutdown && !RunOf(now, steps).worker.Exited?
    ensures var w := RunOf(now, steps);
            var own := OwnStep(w.worker);
            && Enabled(w, own) && FromExit(Next(w, own).worker) < FromExit(w.worker) <= 3
            && FromExit(Next(w, t).worker) <= FromExit(w.worker)
            && Next(w, t).shutdown && Next(w, t).decided == w.decided
  {
    AlwaysCleared(now, steps);
    AlwaysNotified(now, steps);
  }

  ghost predicate LastWithin(w: World, after: World) {
    && after.shutdown && w.dispatched <= after.dispatched
    && |after.dispatched| + (if after.worker.Cleared? then 1 else 0) <= |w.dispatched| + 1
  }

  lemma NextLastWithin(w: World, mid: World, t: Step)
    requires LastWithin(w, mid)
    ensures LastWithin(w, Next(mid, t))
  {
  }

  /** After a shutdown at most one dispatch still happens. */
  lemma {:induction false} AtMostOneLastDispatch(now: int, steps: seq<Step>, more: seq<Step>)
    requires RunOf(now, steps).shutdown
    ensures LastWithin(RunOf(now, steps), RunOf(now, steps + more))
    ensures |RunOf(now, steps + more).dispatched| <= |RunOf(now, steps).dispatched| + 1
  {
    if more == [] {
      assert steps + more == steps;
    } else {
      var shorter := more[..|more| - 1];
      AtMostOneLastDispatch(now, steps, shorter);
      assert (steps + more)[..|steps + more| - 1] == steps + shorter;
      NextLastWithin(RunOf(now, steps), RunOf(now, steps + shorter), more[|more| - 1]);
    }
  }
}
