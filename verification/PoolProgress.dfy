/**
 Action dispatch gets on: while a dispatch is not over some step other than a new dispatch or a
 shutdown can be taken, and each such step leaves less work to do.
 */
module PoolProgress {
  import opened Prelude
  import opened ActionPool
  import opened PoolRuns

  predicate IsWork(t: Step) {
    !t.Dispatch? && !t.Shutdown?
  }

  // ----- how much is left to do -----

  function Sum<T>(s: seq<T>, weight: T -> nat): nat {
    if s == [] then 0 else Sum(s[..|s| - 1], weight) + weight(s[|s| - 1])
  }

  lemma {:induction false} SumUpdate<T>(s: seq<T>, k: nat, x: T, weight: T -> nat)
    requires k < |s|
    ensures Sum(s[k := x], weight) + weight(s[k]) == Sum(s, weight) + weight(x)
  {
    var last := |s| - 1;
    if k == last {
      assert s[k := x][..last] == s[..last];
    } else {
      assert s[k := x][..last] == s[..last][k := x];
      SumUpdate(s[..last], k, x, weight);
    }
  }

  function StageWork(stage: Stage): nat {
    match stage
    case Queued => 4
    case Handling => 3
    case Publishing(_) => 2
    case Answering(_) => 1
    case Done(_) => 0
    case Panicked => 0
  }

  function JobWork(): Job -> nat {
    (job: Job) => StageWork(job.stage)
  }

  function WorkerWork(): Worker -> nat {
    (worker: Worker) =>
      match worker
      case Idle => 1
      case Took(_) => 3
      case Busy(_) => 2
      case Exited => 0
  }

  function Work(w: World): nat {
    Sum(w.jobs, JobWork()) + 3 * |w.queue| + Sum(w.workers, WorkerWork())
  }

  lemma StagedWork(w: World, j: nat, stage: Stage)
    requires j < |w.jobs|
    ensures Sum(Staged(w, j, stage).jobs, JobWork()) + StageWork(w.jobs[j].stage)
            == Sum(w.jobs, JobWork()) + StageWork(stage)
  {
    SumUpdate(w.jobs, j, w.jobs[j].(stage := stage), JobWork());
  }

  lemma BeginWork(w: World, k: nat)
    requires QueueSound(w) && k < |w.workers| && w.workers[k].Took? && w.workers[k].job < |w.jobs|
    ensures Work(Beginning(w, k)) < Work(w)
  {
    StagedWork(w, w.workers[k].job, Handling);
    SumUpdate(w.workers, k, Busy(w.workers[k].job), WorkerWork());
  }

  lemma StageStepWork(c: Config, w: World, t: Step)
    requires Enabled(w, t) && (t.Handle? || t.Publish? || t.Answer?)
    ensures Work(Next(c, w, t)) < Work(w)
  {
    var j := t.j;
    StagedWork(w, j, Next(c, w, t).jobs[j].stage);
  }

  lemma WorkerStepWork(c: Config, w: World, t: Step)
    requires Enabled(w, t) && (t.Take? || t.Release? || t.Exit?)
    ensures Work(Next(c, w, t)) < Work(w)
  {
    var k := t.k;
    SumUpdate(w.workers, k, Next(c, w, t).workers[k], WorkerWork());
  }

  /** Every step but a new dispatch or a shutdown leaves less to do. */
  lemma WorkShrinks(c: Config, w: World, t: Step)
    requires QueueSound(w) && Enabled(w, t) && IsWork(t)
    ensures Work(Next(c, w, t)) < Work(w)
  {
    if t.BeginJob? {
      BeginWork(w, t.k);
    } else if t.Handle? || t.Publish? || t.Answer? {
      StageStepWork(c, w, t);
    } else {
      WorkerStepWork(c, w, t);
    }
  }

  // ----- what can be done next -----

  /** The next stage of a job that has been started; `outcome` is what its handler does. */
  function StageStep(w: World, j: nat, outcome: Option<Outcome>): Step
    requires j < |w.jobs|
  {
    match w.jobs[j].stage
    case Handling => Handle(j, outcome)
    case Publishing(_) => Publish(j)
    case _ => Answer(j)
  }

  lemma BusyCounts(s: seq<Worker>, k: nat)
    requires k < |s| && s[k].Busy?
    ensures Count(s, IsBusy()) > 0
  {
    CountZero(s, IsBusy());
    assert IsBusy()(s[k]) && s[k] in s;
  }

  /** Some worker's next step, when the queue is not empty. */
  lemma WorkerCanStep(c: Config, w: World, k: nat, outcome: Option<Outcome>) returns (t: Step)
    requires Bounded(c, w) && QueueSound(w) && k < |w.workers| && w.queue != []
    ensures Enabled(w, t) && IsWork(t)
  {
    match w.workers[k]
    case Idle => t := Take(k);
    case Took(_) => t := BeginJob(k);
    case Busy(i) =>
      if Over(w.jobs[i].stage) {
        BusyCounts(w.workers, k);
        t := Release(k);
      } else {
        t := StageStep(w, i, outcome);
      }
  }

  lemma JobCanStep(c: Config, w: World, j: nat, outcome: Option<Outcome>) returns (t: Step)
    requires Bounded(c, w) && QueueSound(w) && c.workers >= 1
    requires j < |w.jobs| && Placed(w, j) && !Over(w.jobs[j].stage)
    ensures Enabled(w, t) && IsWork(t)
  {
    if !w.jobs[j].stage.Queued? {
      t := StageStep(w, j, outcome);
    } else if j in w.queue {
      t := WorkerCanStep(c, w, 0, outcome);
    } else {
      var k :| 0 <= k < |w.workers| && w.workers[k] == Took(j);
      t := BeginJob(k);
    }
  }

  /** At every moment of every run, while a dispatch is not over there is a step to take, its own or
      a worker's, whatever its handler does, and taking it leaves less to do. */
  lemma EveryDispatchGetsOn(c: Config, steps: seq<Step>, j: nat, outcome: Option<Outcome>) returns (t: Step)
    requires c.workers >= 1 && j < |RunOf(c, steps).jobs| && !Over(RunOf(c, steps).jobs[j].stage)
    ensures Enabled(RunOf(c, steps), t) && IsWork(t)
    ensures Work(Next(c, RunOf(c, steps), t)) < Work(RunOf(c, steps))
  {
    AlwaysSound(c, steps);
    t := JobCanStep(c, RunOf(c, steps), j, outcome);
    WorkShrinks(c, RunOf(c, steps), t);
  }

  /** The steps can be taken one after another, none of them a new dispatch or a shutdown. */
  ghost predicate CanTake(c: Config, w: World, more: seq<Step>)
    decreases |more|
  {
    more == [] || (Enabled(w, more[0]) && IsWork(more[0]) && CanTake(c, Next(c, w, more[0]), more[1..]))
  }

  lemma {:induction false} OnlySoMany(c: Config, w: World, more: seq<Step>)
    requires Sound(c, w) && CanTake(c, w, more)
    ensures |more| <= Work(w)
    decreases |more|
  {
    if more == [] {
    } else {
      NextSound(c, w, more[0]);
      WorkShrinks(c, w, more[0]);
      OnlySoMany(c, Next(c, w, more[0]), more[1..]);
    }
  }

  /** Without new dispatches and shutdown, at most as many steps can be taken as there is work left;
      so every schedule that keeps taking steps ends with every dispatch over. */
  lemma WorkRunsOut(c: Config, steps: seq<Step>, more: seq<Step>)
    requires CanTake(c, RunOf(c, steps), more)
    ensures |more| <= Work(RunOf(c, steps))
  {
    AlwaysSound(c, steps);
    OnlySoMany(c, RunOf(c, steps), more);
  }

  /** So when nothing but a new dispatch or a shutdown can be done, every dispatch is over. */
  lemma IdleMeansOver(c: Config, steps: seq<Step>, j: nat)
    requires c.workers >= 1 && j < |RunOf(c, steps).jobs|
    requires forall t :: IsWork(t) ==> !Enabled(RunOf(c, steps), t)
    ensures Over(RunOf(c, steps).jobs[j].stage)
  {
    if !Over(RunOf(c, steps).jobs[j].stage) {
      var t := EveryDispatchGetsOn(c, steps, j, None);
    }
  }
}
