/**
 Action dispatch under every schedule: dispatches, the stages of each job and the rounds of each
 worker interleave freely, and the pool may be shut down at any moment.
 */
module PoolRuns {
  import opened Prelude
  import opened ActionPool

  datatype Step =
    | Dispatch(entry: Entry)
    | Handle(j: nat, outcome: Option<Outcome>)
    | Publish(j: nat)
    | Answer(j: nat)
    | Take(k: nat)
    | BeginJob(k: nat)
    | Release(k: nat)
    | Exit(k: nat)
    | Shutdown

  predicate Over(stage: Stage) {
    stage.Done? || stage.Panicked?
  }

  predicate Enabled(w: World, t: Step) {
    match t
    case Dispatch(_) => true
    case Handle(j, _) => j < |w.jobs| && w.jobs[j].stage.Handling?
    case Publish(j) => j < |w.jobs| && w.jobs[j].stage.Publishing?
    case Answer(j) => j < |w.jobs| && w.jobs[j].stage.Answering?
    case Take(k) => k < |w.workers| && w.workers[k].Idle? && w.queue != []
    case BeginJob(k) => k < |w.workers| && w.workers[k].Took? && w.workers[k].job < |w.jobs|
    case Release(k) =>
      && k < |w.workers| && w.workers[k].Busy? && w.workers[k].job < |w.jobs|
      && Over(w.jobs[w.workers[k].job].stage) && w.active > 0
    case Exit(k) => k < |w.workers| && w.workers[k].Idle? && w.queue == [] && !w.tx
    case Shutdown => true
  }

  function Next(c: Config, w: World, t: Step): World {
    if !Enabled(w, t) then w
    else
      match t
      case Dispatch(e) => Dispatched(c, w, e)
      case Handle(j, outcome) => Handled(w, j, outcome)
      case Publish(j) => PublishDone(w, j)
      case Answer(j) => AnswerDone(w, j)
      case Take(k) => Taking(w, k)
      case BeginJob(k) => Beginning(w, k)
      case Release(k) => Releasing(w, k)
      case Exit(k) => w.(workers := w.workers[k := Exited])
      case Shutdown => w.(tx := false)
  }

  function RunOf(c: Config, steps: seq<Step>): World {
    if steps == [] then Start(c) else Next(c, RunOf(c, steps[..|steps| - 1]), steps[|steps| - 1])
  }

  // ----- bounds -----

  function IsBusy(): Worker -> bool {
    (x: Worker) => x.Busy?
  }

  lemma CountUpdate(s: seq<Worker>, k: nat, x: Worker)
    requires k < |s|
    ensures Count(s[k := x], IsBusy()) + (if s[k].Busy? then 1 else 0)
            == Count(s, IsBusy()) + (if x.Busy? then 1 else 0)
  {
    var after := s[k := x];
    assert s == s[..k] + [s[k]] + s[k + 1..] && after == s[..k] + [x] + s[k + 1..];
    CountSnoc(s[..k], s[k], IsBusy());
    CountSnoc(s[..k], x, IsBusy());
    CountConcat(s[..k] + [s[k]], s[k + 1..], IsBusy());
    CountConcat(s[..k] + [x], s[k + 1..], IsBusy());
  }

  lemma CountAtMost<T>(s: seq<T>, p: T -> bool)
    ensures Count(s, p) <= |s|
  {
  }

  lemma CountNone<T>(n: nat, x: T, p: T -> bool)
    requires !p(x)
    ensures Count(seq(n, _ => x), p) == 0
  {
    CountZero(seq(n, _ => x), p);
  }

  ghost predicate Bounded(c: Config, w: World) {
    && |w.queue| <= c.capacity
    && |w.workers| == c.workers
    && w.active == Count(w.workers, IsBusy())
    && (forall k :: 0 <= k < |w.workers| && w.workers[k].Exited? ==> !w.tx && w.queue == [])
  }

  lemma NextBounded(c: Config, w: World, t: Step)
    requires Bounded(c, w)
    ensures Bounded(c, Next(c, w, t))
  {
    if Enabled(w, t) {
      match t
      case Take(k) => CountUpdate(w.workers, k, Took(w.queue[0]));
      case BeginJob(k) => CountUpdate(w.workers, k, Busy(w.workers[k].job));
      case Release(k) => CountUpdate(w.workers, k, Idle);
      case Exit(k) => CountUpdate(w.workers, k, Exited);
      case _ =>
    }
  }

  // ----- where each job is -----

  predicate Active(stage: Stage) {
    stage.Handling? || stage.Publishing? || stage.Answering?
  }

  ghost predicate HeldBy(w: World, worker: Worker) {
    exists k :: 0 <= k < |w.workers| && w.workers[k] == worker
  }

  /** A pooled job is queued, taken by one worker, or busy in one; anything else is over. */
  ghost predicate Placed(w: World, j: nat)
    requires j < |w.jobs|
  {
    var job := w.jobs[j];
    && (job.carrier.Pool? <==> j in w.accepted)
    && (job.stage.Queued? ==> job.carrier.Pool? && (j in w.queue || HeldBy(w, Took(j))))
    && (Active(job.stage) && job.carrier.Pool? ==> HeldBy(w, Busy(j)))
    && (job.cancelled ==> !job.carrier.Pool? && !job.stage.Handling? && !job.stage.Panicked?)
  }

  ghost predicate QueueSound(w: World) {
    && w.accepted == w.taken + w.queue
    && (forall a, b :: 0 <= a < b < |w.accepted| ==> w.accepted[a] < w.accepted[b])
    && (forall j :: j in w.accepted ==> j < |w.jobs|)
    && (forall j :: j in w.queue ==> j < |w.jobs| && w.jobs[j].stage.Queued?)
    && (forall k :: 0 <= k < |w.workers| && w.workers[k].Took? ==>
          var j := w.workers[k].job; j in w.taken && j < |w.jobs| && w.jobs[j].stage.Queued?)
    && (forall k, l :: 0 <= k < l < |w.workers| && w.workers[k].Took? ==> w.workers[k] != w.workers[l])
    && (forall k :: 0 <= k < |w.workers| && w.workers[k].Busy? ==>
          var j := w.workers[k].job; j < |w.jobs| && !w.jobs[j].stage.Queued?)
  }

  ghost predicate Sound(c: Config, w: World) {
    Bounded(c, w) && QueueSound(w) && forall j: nat :: j < |w.jobs| ==> Placed(w, j)
  }

  lemma QueueApart(w: World, j: nat)
    requires QueueSound(w) && j in w.queue
    ensures j !in w.taken
    ensures j == w.queue[0] ==> j !in w.queue[1..]
  {
    var b :| 0 <= b < |w.queue| && w.queue[b] == j;
    assert w.accepted[|w.taken| + b] == j;
    forall a | 0 <= a < |w.taken|
      ensures w.taken[a] != j
    {
      assert w.accepted[a] == w.taken[a];
    }
    if j == w.queue[0] {
      forall b | 0 <= b < |w.queue[1..]|
        ensures w.queue[1..][b] != j
      {
        assert w.accepted[|w.taken|] == j && w.accepted[|w.taken| + b + 1] == w.queue[1..][b];
      }
    }
  }

  lemma DispatchQueue(c: Config, w: World, e: Entry)
    requires QueueSound(w)
    ensures QueueSound(Dispatched(c, w, e))
  {
    var after := Dispatched(c, w, e);
    var queued := if NewJob(c, w, e).stage.Queued? then [|w.jobs|] else [];
    assert w.taken + (w.queue + queued) == w.accepted + queued;
    forall a, b | 0 <= a < b < |after.accepted|
      ensures after.accepted[a] < after.accepted[b]
    {
      if b == |w.accepted| {
        assert w.accepted[a] in w.accepted;
      }
    }
  }

  lemma TakeQueue(w: World, k: nat)
    requires QueueSound(w) && k < |w.workers| && w.queue != []
    ensures QueueSound(Taking(w, k))
  {
    var after, j := Taking(w, k), w.queue[0];
    QueueApart(w, j);
    assert after.taken + after.queue == w.accepted;
    forall x | x in after.queue
      ensures x < |w.jobs| && w.jobs[x].stage.Queued?
    {
      assert x in w.queue;
    }
    forall l | 0 <= l < |after.workers| && after.workers[l].Took?
      ensures var x := after.workers[l].job; x in after.taken && x < |w.jobs| && w.jobs[x].stage.Queued?
    {
      assert j in w.queue && after.taken[|w.taken|] == j;
    }
  }

  lemma BeginQueue(w: World, k: nat)
    requires QueueSound(w) && k < |w.workers| && w.workers[k].Took? && w.workers[k].job < |w.jobs|
    ensures QueueSound(Beginning(w, k))
  {
    var j, after := w.workers[k].job, Beginning(w, k);
    forall x | x in w.queue
      ensures x != j
    {
      QueueApart(w, x);
    }
    forall l | 0 <= l < |after.workers| && after.workers[l].Took?
      ensures after.workers[l].job != j
    {
      assert l != k;
    }
  }

  lemma StageQueue(w: World, j: nat, stage: Stage, happened: seq<Happening>)
    requires QueueSound(w) && j < |w.jobs| && !w.jobs[j].stage.Queued? && !stage.Queued?
    ensures QueueSound(Staged(w, j, stage).(happened := happened))
  {
  }

  lemma NextQueueSound(c: Config, w: World, t: Step)
    requires QueueSound(w)
    ensures QueueSound(Next(c, w, t))
  {
    if Enabled(w, t) {
      var after := Next(c, w, t);
      match t
      case Dispatch(e) => DispatchQueue(c, w, e);
      case Handle(j, outcome) => StageQueue(w, j, after.jobs[j].stage, after.happened);
      case Publish(j) => StageQueue(w, j, after.jobs[j].stage, after.happened);
      case Answer(j) => StageQueue(w, j, after.jobs[j].stage, after.happened);
      case Take(k) => TakeQueue(w, k);
      case BeginJob(k) => BeginQueue(w, k);
      case Release(k) =>
      case Exit(k) =>
      case Shutdown =>
    }
  }

  /** Changing worker `k` keeps what the other workers hold. */
  lemma HeldStays(w: World, after: World, k: nat, worker: Worker)
    requires k < |w.workers| == |after.workers| && HeldBy(w, worker)
    requires after.workers == w.workers[k := after.workers[k]]
    requires w.workers[k] != worker || after.workers[k] == worker
    ensures HeldBy(after, worker)
  {
    var l :| 0 <= l < |w.workers| && w.workers[l] == worker;
    assert after.workers[l] == worker;
  }

  lemma TakePlaced(w: World, k: nat, j: nat)
    requires QueueSound(w) && j < |w.jobs| && Placed(w, j)
    requires k < |w.workers| && w.workers[k].Idle? && w.queue != []
    ensures Placed(Taking(w, k), j)
  {
    var after := Taking(w, k);
    if HeldBy(w, Took(j)) {
      HeldStays(w, after, k, Took(j));
    }
    if HeldBy(w, Busy(j)) {
      HeldStays(w, after, k, Busy(j));
    }
    if w.queue[0] == j {
      assert after.workers[k] == Took(j);
    }
  }

  lemma BeginPlaced(w: World, k: nat, j: nat)
    requires QueueSound(w) && j < |w.jobs| && Placed(w, j)
    requires k < |w.workers| && w.workers[k].Took? && w.workers[k].job < |w.jobs|
    ensures Placed(Beginning(w, k), j)
  {
    var after := Beginning(w, k);
    if HeldBy(w, Busy(j)) {
      HeldStays(w, after, k, Busy(j));
    }
    if w.workers[k].job == j {
      assert after.workers[k] == Busy(j);
    } else if HeldBy(w, Took(j)) {
      HeldStays(w, after, k, Took(j));
    }
  }

  lemma ReleasePlaced(w: World, k: nat, j: nat)
    requires QueueSound(w) && j < |w.jobs| && Placed(w, j)
    requires Enabled(w, Release(k))
    ensures Placed(Releasing(w, k), j)
  {
    var after := Releasing(w, k);
    if HeldBy(w, Took(j)) {
      HeldStays(w, after, k, Took(j));
    }
    if HeldBy(w, Busy(j)) && w.workers[k] != Busy(j) {
      HeldStays(w, after, k, Busy(j));
    }
  }

  lemma ExitPlaced(w: World, k: nat, j: nat)
    requires QueueSound(w) && j < |w.jobs| && Placed(w, j)
    requires Enabled(w, Exit(k))
    ensures Placed(w.(workers := w.workers[k := Exited]), j)
  {
    var after := w.(workers := w.workers[k := Exited]);
    if HeldBy(w, Took(j)) {
      HeldStays(w, after, k, Took(j));
    }
    if HeldBy(w, Busy(j)) {
      HeldStays(w, after, k, Busy(j));
    }
  }

  /** A stage change past the queue, which no worker takes part in. */
  lemma StagePlaced(w: World, who: nat, stage: Stage, happened: seq<Happening>, j: nat)
    requires j < |w.jobs| && Placed(w, j)
    requires who < |w.jobs| && Active(w.jobs[who].stage)
    requires !stage.Queued? && !stage.Handling? && (stage.Panicked? ==> w.jobs[who].stage.Handling?)
    ensures Placed(Staged(w, who, stage).(happened := happened), j)
  {
    var after := Staged(w, who, stage).(happened := happened);
    assert forall x :: HeldBy(after, x) <==> HeldBy(w, x);
  }

  lemma DispatchPlaced(c: Config, w: World, e: Entry, j: nat)
    requires QueueSound(w) && j < |w.jobs| && Placed(w, j)
    ensures Placed(Dispatched(c, w, e), j)
  {
    var after := Dispatched(c, w, e);
    assert forall x :: HeldBy(after, x) <==> HeldBy(w, x);
  }

  lemma NextPlaced(c: Config, w: World, t: Step, j: nat)
    requires QueueSound(w) && j < |w.jobs| && Placed(w, j)
    ensures j < |Next(c, w, t).jobs| && Placed(Next(c, w, t), j)
  {
    if Enabled(w, t) {
      var after := Next(c, w, t);
      match t
      case Dispatch(e) => DispatchPlaced(c, w, e, j);
      case Handle(i, _) => StagePlaced(w, i, after.jobs[i].stage, after.happened, j);
      case Publish(i) => StagePlaced(w, i, after.jobs[i].stage, after.happened, j);
      case Answer(i) => StagePlaced(w, i, after.jobs[i].stage, after.happened, j);
      case Take(k) => TakePlaced(w, k, j);
      case BeginJob(k) => BeginPlaced(w, k, j);
      case Release(k) => ReleasePlaced(w, k, j);
      case Exit(k) => ExitPlaced(w, k, j);
      case Shutdown => assert forall x :: HeldBy(after, x) <==> HeldBy(w, x);
    }
  }

  lemma NewPlaced(c: Config, w: World, e: Entry)
    requires QueueSound(w)
    ensures Placed(Dispatched(c, w, e), |w.jobs|)
  {
  }

  lemma NextSound(c: Config, w: World, t: Step)
    requires Sound(c, w)
    ensures Sound(c, Next(c, w, t))
  {
    var after := Next(c, w, t);
    NextBounded(c, w, t);
    NextQueueSound(c, w, t);
    forall j: nat | j < |after.jobs|
      ensures Placed(after, j)
    {
      if j < |w.jobs| {
        NextPlaced(c, w, t, j);
      } else {
        NewPlaced(c, w, t.entry);
      }
    }
  }

  lemma {:induction false} AlwaysSound(c: Config, steps: seq<Step>)
    ensures Sound(c, RunOf(c, steps))
  {
    if steps == [] {
      CountNone(c.workers, Idle, IsBusy());
    } else {
      AlwaysSound(c, steps[..|steps| - 1]);
      NextSound(c, RunOf(c, steps[..|steps| - 1]), steps[|steps| - 1]);
    }
  }

  // ----- what happened to each job -----

  function Of(j: nat): Happening -> bool {
    (h: Happening) => h.job == j
  }

  function RunMark(job: Job, j: nat): seq<Happening> {
    if job.cancelled then [] else [Ran(j)]
  }

  function PublishMark(job: Job, j: nat, outcome: Outcome): seq<Happening> {
    if job.publishes then [Published(j, outcome)] else []
  }

  /** The whole history of a job, told from its stage alone. */
  function Story(job: Job, j: nat): seq<Happening> {
    match job.stage
    case Queued => []
    case Handling => []
    case Panicked => [Ran(j)]
    case Publishing(_) => RunMark(job, j)
    case Answering(outcome) => RunMark(job, j) + PublishMark(job, j, outcome)
    case Done(outcome) => RunMark(job, j) + PublishMark(job, j, outcome) + [Answered(j, outcome)]
  }

  /** The recorded history agrees with the story, job by job, and speaks of no other job. */
  ghost predicate Told(w: World) {
    && (forall j: nat :: j < |w.jobs| ==> Filter(w.happened, Of(j)) == Story(w.jobs[j], j))
    && (forall j: nat :: j >= |w.jobs| ==> Filter(w.happened, Of(j)) == [])
  }

  lemma AppendStory(w: World, more: seq<Happening>, who: nat, j: nat)
    requires forall h :: h in more ==> h.job == who
    requires |more| <= 1
    ensures Filter(w.happened + more, Of(j)) == Filter(w.happened, Of(j)) + if j == who then more else []
  {
    FilterConcat(w.happened, more, Of(j));
    if |more| == 1 {
      assert more[0] in more;
      assert more == [more[0]];
      FilterHead(more, Of(j));
    }
  }

  lemma StageTold(w: World, who: nat, stage: Stage, more: seq<Happening>)
    requires Told(w) && who < |w.jobs|
    requires |more| <= 1 && forall h :: h in more ==> h.job == who
    requires Story(w.jobs[who].(stage := stage), who) == Story(w.jobs[who], who) + more
    ensures Told(Staged(w, who, stage).(happened := w.happened + more))
  {
    var after := Staged(w, who, stage).(happened := w.happened + more);
    forall j: nat
      ensures Filter(after.happened, Of(j)) == if j < |w.jobs| then Story(after.jobs[j], j) else []
    {
      AppendStory(w, more, who, j);
      assert Filter(w.happened, Of(j)) + [] == Filter(w.happened, Of(j));
    }
  }

  lemma DispatchTold(c: Config, w: World, e: Entry)
    requires Told(w)
    ensures Told(Dispatched(c, w, e))
  {
  }

  lemma HandleTold(w: World, j: nat, outcome: Option<Outcome>)
    requires Told(w) && Enabled(w, Handle(j, outcome)) && Placed(w, j)
    ensures Told(Handled(w, j, outcome))
  {
    StageTold(w, j, if outcome.Some? then Publishing(outcome.value) else Panicked, [Ran(j)]);
  }

  lemma PublishTold(w: World, j: nat)
    requires Told(w) && Enabled(w, Publish(j))
    ensures Told(PublishDone(w, j))
  {
    var outcome := w.jobs[j].stage.outcome;
    StageTold(w, j, Answering(outcome), PublishMark(w.jobs[j], j, outcome));
  }

  lemma AnswerTold(w: World, j: nat)
    requires Told(w) && Enabled(w, Answer(j))
    ensures Told(AnswerDone(w, j))
  {
    var outcome := w.jobs[j].stage.outcome;
    StageTold(w, j, Done(outcome), [Answered(j, outcome)]);
  }

  lemma BeginTold(w: World, k: nat)
    requires Told(w) && QueueSound(w) && Enabled(w, BeginJob(k))
    ensures Told(Beginning(w, k))
  {
    assert w.happened + [] == w.happened;
    StageTold(w, w.workers[k].job, Handling, []);
  }

  /** Neither the jobs nor what happened is touched. */
  lemma SameTold(w: World, after: World)
    requires Told(w) && after.jobs == w.jobs && after.happened == w.happened
    ensures Told(after)
  {
  }

  lemma NextTold(c: Config, w: World, t: Step)
    requires Told(w) && QueueSound(w)
    requires forall j: nat :: j < |w.jobs| ==> Placed(w, j)
    ensures Told(Next(c, w, t))
  {
    if Enabled(w, t) {
      match t
      case Dispatch(e) => DispatchTold(c, w, e);
      case Handle(j, outcome) => HandleTold(w, j, outcome);
      case Publish(j) => PublishTold(w, j);
      case Answer(j) => AnswerTold(w, j);
      case BeginJob(k) => BeginTold(w, k);
      case _ => SameTold(w, Next(c, w, t));
    }
  }

  lemma {:induction false} AlwaysTold(c: Config, steps: seq<Step>)
    ensures Told(RunOf(c, steps))
  {
    if steps == [] {
    } else {
      AlwaysTold(c, steps[..|steps| - 1]);
      AlwaysSound(c, steps[..|steps| - 1]);
      NextTold(c, RunOf(c, steps[..|steps| - 1]), steps[|steps| - 1]);
    }
  }

  // ----- the results -----

  /** The queue never outgrows its capacity and never more handlers of the pool are active than it
      has workers. */
  lemma PoolWithinBounds(c: Config, steps: seq<Step>)
    ensures |RunOf(c, steps).queue| <= c.capacity && RunOf(c, steps).active <= c.workers
  {
    AlwaysSound(c, steps);
    CountAtMost(RunOf(c, steps).workers, IsBusy());
  }

  /** A dispatch whose handler returned is answered exactly once, after its one completion event
      unless it is silent, with the outcome published; a cancelled one likewise, as overloaded and
      without its handler ever running; a panicking one neither publishes nor answers. */
  lemma AnsweredOnce(c: Config, steps: seq<Step>, j: nat)
    requires j < |RunOf(c, steps).jobs|
    ensures var w := RunOf(c, steps);
            var job := w.jobs[j];
            && (job.stage.Done? ==>
                 Filter(w.happened, Of(j)) == RunMark(job, j) + PublishMark(job, j, job.stage.outcome)
                                              + [Answered(j, job.stage.outcome)])
            && (job.stage.Panicked? ==> Filter(w.happened, Of(j)) == [Ran(j)])
            && (!job.stage.Done? ==> forall h :: h in w.happened && h.job == j ==> !h.Answered?)
  {
    AlwaysTold(c, steps);
    var w := RunOf(c, steps);
    FilterMembers(w.happened, Of(j));
    forall h | h in w.happened && h.job == j
      ensures h in Story(w.jobs[j], j)
    {
      assert Of(j)(h);
    }
  }

  ghost predicate OverloadedOnly(w: World, j: nat)
    requires j < |w.jobs|
  {
    var stage := w.jobs[j].stage;
    w.jobs[j].cancelled ==> (stage.Publishing? || stage.Answering? || stage.Done?) && stage.outcome == OVERLOADED
  }

  lemma NextOverloaded(c: Config, w: World, t: Step, j: nat)
    requires QueueSound(w) && j < |w.jobs| && OverloadedOnly(w, j)
    ensures OverloadedOnly(Next(c, w, t), j)
  {
  }

  predicate HasOutcome(stage: Stage) {
    stage.Publishing? || stage.Answering? || stage.Done?
  }

  /** A stage past the handler comes from the handler's return, or from the stage before it. */
  lemma NextOutcome(c: Config, w: World, t: Step, j: nat)
    requires j < |w.jobs|
    ensures var was, stage := w.jobs[j].stage, Next(c, w, t).jobs[j].stage;
            && (HasOutcome(stage) ==>
                  (HasOutcome(was) && was.outcome == stage.outcome) || t == Handle(j, Some(stage.outcome)))
            && (stage.Panicked? ==> was.Panicked? || t == Handle(j, None))
            && Next(c, w, t).jobs[j].cancelled == w.jobs[j].cancelled
  {
  }

  lemma NewOutcome(c: Config, w: World, t: Step)
    requires |w.jobs| < |Next(c, w, t).jobs|
    ensures var job := Next(c, w, t).jobs[|w.jobs|];
            |Next(c, w, t).jobs| == |w.jobs| + 1 && !job.stage.Panicked? && (HasOutcome(job.stage) ==> job.cancelled)
  {
  }

  /** What is published and answered is what the handler returned; only a handler that panicked ends a
      dispatch as panicked. */
  lemma {:induction false} OutcomeIsTheHandlers(c: Config, steps: seq<Step>, j: nat)
    requires j < |RunOf(c, steps).jobs| && !RunOf(c, steps).jobs[j].cancelled
    ensures var stage := RunOf(c, steps).jobs[j].stage;
            && (stage.Publishing? || stage.Answering? || stage.Done? ==> Handle(j, Some(stage.outcome)) in steps)
            && (stage.Panicked? ==> Handle(j, None) in steps)
  {
    if steps == [] {
    } else {
      var before, t := steps[..|steps| - 1], steps[|steps| - 1];
      assert t in steps && forall x :: x in before ==> x in steps;
      if j < |RunOf(c, before).jobs| {
        NextOutcome(c, RunOf(c, before), t, j);
        OutcomeIsTheHandlers(c, before, j);
      } else {
        NewOutcome(c, RunOf(c, before), t);
      }
    }
  }

  /** A cancelled dispatch answers `overloaded` and nothing else. */
  lemma {:induction false} CancelledIsOverloaded(c: Config, steps: seq<Step>, j: nat)
    requires j < |RunOf(c, steps).jobs|
    ensures OverloadedOnly(RunOf(c, steps), j)
  {
    if steps == [] {
    } else {
      var before := steps[..|steps| - 1];
      if j < |RunOf(c, before).jobs| {
        AlwaysSound(c, before);
        CancelledIsOverloaded(c, before, j);
        NextOverloaded(c, RunOf(c, before), steps[|steps| - 1], j);
      }
    }
  }

  /** Jobs start in the order they were accepted, each accepted job is taken at most once, and none
      disappears: what was accepted is what was taken followed by what is queued. */
  lemma TakenInOrder(c: Config, steps: seq<Step>)
    ensures var w := RunOf(c, steps);
            && w.accepted == w.taken + w.queue
            && (forall a, b :: 0 <= a < b < |w.taken| ==> w.taken[a] < w.taken[b])
            && (forall j: nat :: j in w.accepted <==> j < |w.jobs| && w.jobs[j].carrier.Pool?)
  {
    AlwaysSound(c, steps);
    var w := RunOf(c, steps);
    forall a, b | 0 <= a < b < |w.taken|
      ensures w.taken[a] < w.taken[b]
    {
      assert w.taken[a] == w.accepted[a] && w.taken[b] == w.accepted[b];
    }
    forall j: nat
      ensures j in w.accepted <==> j < |w.jobs| && w.jobs[j].carrier.Pool?
    {
      if j < |w.jobs| {
        assert Placed(w, j);
      }
    }
  }

  /** Shutdown loses no accepted job: once every worker has left, each job the pool accepted ran its
      handler exactly once, and either panicked or was published and answered. */
  lemma ShutdownRunsEverything(c: Config, steps: seq<Step>, j: nat)
    requires c.workers >= 1
    requires forall k :: 0 <= k < |RunOf(c, steps).workers| ==> RunOf(c, steps).workers[k].Exited?
    requires j in RunOf(c, steps).accepted
    ensures var w := RunOf(c, steps);
            && j < |w.jobs| && Over(w.jobs[j].stage) && !w.jobs[j].cancelled
            && Filter(w.happened, Of(j)) == Story(w.jobs[j], j)
            && Count(Story(w.jobs[j], j), IsRun()) == 1
  {
    AlwaysSound(c, steps);
    AlwaysTold(c, steps);
    var w := RunOf(c, steps);
    assert w.workers[0].Exited? && w.queue == [];
    assert Placed(w, j);
    assert !HeldBy(w, Took(j)) && !HeldBy(w, Busy(j));
    OneRun(w.jobs[j], j);
  }

  function IsRun(): Happening -> bool {
    (h: Happening) => h.Ran?
  }

  lemma OneRun(job: Job, j: nat)
    requires Over(job.stage)
    ensures Count(Story(job, j), IsRun()) == if job.stage.Panicked? || !job.cancelled then 1 else 0
  {
    if job.stage.Done? {
      var outcome := job.stage.outcome;
      CountConcat(RunMark(job, j), PublishMark(job, j, outcome), IsRun());
      CountSnoc(RunMark(job, j) + PublishMark(job, j, outcome), Answered(j, outcome), IsRun());
      assert Count(RunMark(job, j), IsRun()) == if job.cancelled then 0 else 1;
      assert Count(PublishMark(job, j, outcome), IsRun()) == 0;
    }
  }

  /** After a shutdown the pool accepts nothing: every later blocking dispatch is cancelled on the
      spot. */
  lemma {:induction false} ClosedStaysClosed(c: Config, steps: seq<Step>, more: seq<Step>)
    requires !RunOf(c, steps).tx
    ensures !RunOf(c, steps + more).tx && RunOf(c, steps + more).accepted == RunOf(c, steps).accepted
  {
    if more == [] {
      assert steps + more == steps;
    } else {
      ClosedStaysClosed(c, steps, more[..|more| - 1]);
      assert (steps + more)[..|steps + more| - 1] == steps + more[..|more| - 1];
    }
  }
}
