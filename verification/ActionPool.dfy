/**
 Action dispatch: handlers that run on the caller's thread, on the bounded worker pool, or on a
 thread of their own, each followed by its completion event and its responder. A dispatch is named
 by its number.
 */
module ActionPool {
  import opened Prelude

  /** What a handler, or the cancellation of a job, hands to the responder. */
  datatype Outcome = Succeeded(value: string) | Failed(code: string)

  const OVERLOADED := Failed("overloaded")

  datatype Entry = Entry(blocking: bool, silent: bool)

  datatype Carrier = Caller | Pool | OwnThread

  datatype Stage =
    | Queued
    | Handling
    | Publishing(outcome: Outcome)
    | Answering(outcome: Outcome)
    | Done(outcome: Outcome)
    | Panicked

  datatype Job = Job(carrier: Carrier, publishes: bool, cancelled: bool, stage: Stage)

  /** A worker has taken a job before it counts itself active, and is busy until it uncounts. */
  datatype Worker = Idle | Took(job: nat) | Busy(job: nat) | Exited

  /** What happened, in order: handlers run, completion events published, responders called. */
  datatype Happening =
    | Ran(job: nat)
    | Published(job: nat, outcome: Outcome)
    | Answered(job: nat, outcome: Outcome)

  datatype Config = Config(workers: nat, capacity: nat, pooled: bool, bus: bool)

  /** `accepted` and `taken` record which jobs entered and left the queue. */
  datatype World = World(
    tx: bool, queue: seq<nat>, active: nat, workers: seq<Worker>, jobs: seq<Job>,
    accepted: seq<nat>, taken: seq<nat>, happened: seq<Happening>)

  function Start(c: Config): World {
    World(true, [], 0, seq(c.workers, _ => Idle), [], [], [], [])
  }

  // ----- dispatching -----

  predicate HasRoom(c: Config, w: World) {
    w.tx && |w.queue| < c.capacity
  }

  function NewJob(c: Config, w: World, e: Entry): Job {
    var publishes := c.bus && !e.silent;
    if !e.blocking then Job(Caller, publishes, false, Handling)
    else if !c.pooled then Job(OwnThread, publishes, false, Handling)
    else if HasRoom(c, w) then Job(Pool, publishes, false, Queued)
    else Job(Caller, publishes, true, Publishing(OVERLOADED))
  }

  function Dispatched(c: Config, w: World, e: Entry): World {
    var job := NewJob(c, w, e);
    var queued := if job.stage.Queued? then [|w.jobs|] else [];
    w.(jobs := w.jobs + [job], queue := w.queue + queued, accepted := w.accepted + queued)
  }

  /** A quick handler runs on the caller's thread; a blocking one on the pool, if there is one, and
      otherwise on a thread of its own; and one the pool has no room for is cancelled as overloaded. */
  lemma RoutesExactly(c: Config, w: World, e: Entry)
    ensures var job := NewJob(c, w, e);
            var full := !w.tx || |w.queue| >= c.capacity;
            && (job.publishes <==> c.bus && !e.silent)
            && (job.carrier == OwnThread <==> e.blocking && !c.pooled)
            && (job.carrier == Pool <==> e.blocking && c.pooled && !full)
            && (job.cancelled <==> e.blocking && c.pooled && full)
            && job.stage == (if job.cancelled then Publishing(Failed("overloaded"))
                             else if job.carrier == Pool then Queued else Handling)
  {
  }

  // ----- the stages of one job -----

  function Staged(w: World, j: nat, stage: Stage): World
    requires j < |w.jobs|
  {
    w.(jobs := w.jobs[j := w.jobs[j].(stage := stage)])
  }

  /** The handler returns, or panics (None): then nothing is published and nobody answered. */
  function Handled(w: World, j: nat, outcome: Option<Outcome>): World
    requires j < |w.jobs|
  {
    Staged(w, j, if outcome.Some? then Publishing(outcome.value) else Panicked)
    .(happened := w.happened + [Ran(j)])
  }

  function PublishDone(w: World, j: nat): World
    requires j < |w.jobs| && w.jobs[j].stage.Publishing?
  {
    var outcome := w.jobs[j].stage.outcome;
    Staged(w, j, Answering(outcome))
    .(happened := w.happened + if w.jobs[j].publishes then [Published(j, outcome)] else [])
  }

  function AnswerDone(w: World, j: nat): World
    requires j < |w.jobs| && w.jobs[j].stage.Answering?
  {
    var outcome := w.jobs[j].stage.outcome;
    Staged(w, j, Done(outcome)).(happened := w.happened + [Answered(j, outcome)])
  }

  /** Publishing and answering in one go, on one thread. */
  function Finished(w: World, j: nat): World
    requires j < |w.jobs| && w.jobs[j].stage.Publishing?
  {
    AnswerDone(PublishDone(w, j), j)
  }

  // ----- workers -----

  function Taking(w: World, k: nat): World
    requires k < |w.workers| && w.queue != []
  {
    w.(queue := w.queue[1..], taken := w.taken + [w.queue[0]], workers := w.workers[k := Took(w.queue[0])])
  }

  function Beginning(w: World, k: nat): World
    requires k < |w.workers| && w.workers[k].Took? && w.workers[k].job < |w.jobs|
  {
    Staged(w, w.workers[k].job, Handling).(active := w.active + 1, workers := w.workers[k := Busy(w.workers[k].job)])
  }

  function Releasing(w: World, k: nat): World
    requires k < |w.workers| && w.active > 0
  {
    w.(active := w.active - 1, workers := w.workers[k := Idle])
  }

  // ----- the object -----

  class ThreadPool {
    const config: Config
    var tx: bool
    var queue: seq<nat>
    var active: nat
    var workers: seq<Worker>
    var jobs: seq<Job>
    var accepted: seq<nat>
    var taken: seq<nat>
    var happened: seq<Happening>

    function View(): World
      reads this
    {
      World(tx, queue, active, workers, jobs, accepted, taken, happened)
    }

    constructor (config: Config)
      ensures this.config == config && View() == Start(config)
    {
      this.config := config;
      tx, queue, active := true, [], 0;
      workers := seq(config.workers, _ => Idle);
      jobs, accepted, taken, happened := [], [], [], [];
    }

    method TryExecute(j: nat) returns (ok: bool)
      modifies this`queue, this`accepted
      ensures ok <==> HasRoom(config, old(View()))
      ensures queue == old(queue) + if ok then [j] else []
      ensures accepted == old(accepted) + if ok then [j] else []
    {
      ok := tx && |queue| < config.capacity;
      if ok {
        queue, accepted := queue + [j], accepted + [j];
      }
    }

    method Shutdown()
      modifies this`tx
      ensures View() == old(View()).(tx := false)
    {
      tx := false;
    }

    method PublishCompletion(j: nat)
      requires j < |jobs| && jobs[j].stage.Publishing?
      modifies this`jobs, this`happened
      ensures View() == PublishDone(old(View()), j)
    {
      var outcome := jobs[j].stage.outcome;
      if jobs[j].publishes {
        happened := happened + [Published(j, outcome)];
      }
      jobs := jobs[j := jobs[j].(stage := Answering(outcome))];
    }

    method CallResponder(j: nat)
      requires j < |jobs| && jobs[j].stage.Answering?
      modifies this`jobs, this`happened
      ensures View() == AnswerDone(old(View()), j)
    {
      var outcome := jobs[j].stage.outcome;
      jobs := jobs[j := jobs[j].(stage := Done(outcome))];
      happened := happened + [Answered(j, outcome)];
    }

    /** A job the queue rejects: `overloaded` is published and answered on the caller's thread. */
    method Cancel(j: nat)
      requires j < |jobs| && jobs[j].stage == Publishing(OVERLOADED)
      modifies this`jobs, this`happened
      ensures View() == Finished(old(View()), j)
    {
      PublishCompletion(j);
      CallResponder(j);
    }

    /** Runs the handler and, unless it panics, what follows it. */
    method Run(j: nat, outcome: Option<Outcome>)
      requires j < |jobs| && jobs[j].stage.Handling?
      modifies this`jobs, this`happened
      ensures var w := Handled(old(View()), j, outcome); View() == if outcome.None? then w else Finished(w, j)
    {
      happened := happened + [Ran(j)];
      if outcome.None? {
        jobs := jobs[j := jobs[j].(stage := Panicked)];
        return;
      }
      jobs := jobs[j := jobs[j].(stage := Publishing(outcome.value))];
      PublishCompletion(j);
      CallResponder(j);
    }

    /** `outcome` is what the handler does when it runs here, on the caller's thread. */
    method TryDispatch(entry: Option<Entry>, outcome: Option<Outcome>) returns (known: bool)
      modifies this
      ensures known <==> entry.Some?
      ensures
        var was := old(View());
        if entry.None? then View() == was
        else
          var w, j := Dispatched(config, was, entry.value), |was.jobs|;
          View() == if w.jobs[j].cancelled then Finished(w, j)
                    else if entry.value.blocking then w
                    else if outcome.None? then Handled(w, j, None)
                    else Finished(Handled(w, j, outcome), j)
    {
      if entry.None? {
        return false;
      }
      var e := entry.value;
      var publishes := config.bus && !e.silent;
      var j := |jobs|;
      if e.blocking {
        if config.pooled {
          var ok := TryExecute(j);
          if ok {
            jobs := jobs + [Job(Pool, publishes, false, Queued)];
          } else {
            jobs := jobs + [Job(Caller, publishes, true, Publishing(OVERLOADED))];
            assert View() == Dispatched(config, old(View()), e);
            Cancel(j);
          }
        } else {
          jobs := jobs + [Job(OwnThread, publishes, false, Handling)];
          assert View() == Dispatched(config, old(View()), e);
        }
      } else {
        jobs := jobs + [Job(Caller, publishes, false, Handling)];
        assert View() == Dispatched(config, old(View()), e);
        Run(j, outcome);
      }
      known := true;
    }

    /** One round of a worker's loop; false ends the loop. With the channel open and empty the
        worker blocks, so it is not called then. */
    method WorkerRound(k: nat, outcome: Option<Outcome>) returns (again: bool)
      requires k < |workers| && workers[k].Idle?
      requires queue == [] ==> !tx
      requires queue != [] ==> queue[0] < |jobs| && jobs[queue[0]].stage.Queued?
      modifies this
      ensures again <==> old(queue) != []
      ensures !again ==> View() == old(View()).(workers := old(workers)[k := Exited])
      ensures
        again ==>
          var w, j := Beginning(Taking(old(View()), k), k), old(queue)[0];
          var ended := if outcome.None? then Handled(w, j, None) else Finished(Handled(w, j, outcome), j);
          View() == Releasing(ended, k)
    {
      if queue == [] {
        workers := workers[k := Exited];
        return false;
      }
      var j := queue[0];
      queue, taken, workers := queue[1..], taken + [j], workers[k := Took(j)];
      active, workers := active + 1, workers[k := Busy(j)];
      jobs := jobs[j := jobs[j].(stage := Handling)];
      assert View() == Beginning(Taking(old(View()), k), k);
      Run(j, outcome);
      active, workers := active - 1, workers[k := Idle];
      again := true;
    }
  }
}
