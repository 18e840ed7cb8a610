/**
 Calls to one GUI client. Any number of threads call at once, the connection's reader resolves
 replies, and a disconnect drains everything that is pending. Each step is one lock section or one
 channel operation. A call is named by its number, which stands for its fresh id, and the sending
 half of its reply channel by the same number.
 */
module GuiInvoke {
  import opened Prelude

  datatype Response =
    | Reply(id: nat, body: string)
    | Drained(id: nat)
    | DisconnectedBefore
    | SerializeFailed
    | WriterUnreachable
    | TimedOut

  /** Where a call stands. `Cleaning` has given up and still has to remove its pending entry. */
  datatype Stage = Start | Inserted | Waiting | Cleaning(answer: Response) | Done(answer: Response)

  /** `inbox` is the reply channel; `uses` counts how often its sender was used. */
  datatype Call = Call(stage: Stage, inbox: seq<Response>, uses: nat)

  /** `pending` is None after a disconnect. `flying` holds the senders taken out of it and not used
      yet, with what they are about to send. */
  datatype World = World(pending: Option<set<nat>>, calls: seq<Call>, flying: map<nat, Response>)

  const START := World(Some({}), [], map[])

  datatype Step =
    | Begin
    | Insert(i: nat)
    | FailSerialize(i: nat)
    | TrySend(i: nat, accepted: bool)
    | Receive(i: nat)
    | Timeout(i: nat)
    | Clean(i: nat)
    | Resolve(id: nat, body: string)
    | Disconnect
    | Use(id: nat)

  // ----- the client's critical sections -----

  function Without(pending: Option<set<nat>>, id: nat): Option<set<nat>> {
    match pending
    case None => None
    case Some(ids) => Some(ids - {id})
  }

  predicate Holds(pending: Option<set<nat>>, id: nat) {
    pending.Some? && id in pending.value
  }

  class GuiClient {
    var pending: Option<set<nat>>

    constructor ()
      ensures pending == START.pending
    {
      pending := Some({});
    }

    method Insert(id: nat) returns (ok: bool)
      modifies this
      ensures ok <==> old(pending).Some?
      ensures pending == if ok then Some(old(pending).value + {id}) else None
    {
      ok := pending.Some?;
      if ok {
        pending := Some(pending.value + {id});
      }
    }

    method RemovePending(id: nat)
      modifies this
      ensures pending == Without(old(pending), id)
    {
      if pending.Some? {
        pending := Some(pending.value - {id});
      }
    }

    /** The first half of resolving: whoever takes the sender out is the one to use it. */
    method TakeSender(id: nat) returns (taken: bool)
      modifies this
      ensures taken <==> Holds(old(pending), id)
      ensures pending == Without(old(pending), id)
    {
      taken := pending.Some? && id in pending.value;
      RemovePending(id);
    }

    /** The first half of a disconnect. */
    method DrainAll() returns (ids: set<nat>)
      modifies this
      ensures ids == (if old(pending).Some? then old(pending).value else {}) && pending == None
    {
      ids := if pending.Some? then pending.value else {};
      pending := None;
    }
  }

  // ----- the steps -----

  predicate InStage(w: World, i: nat, stage: Stage) {
    i < |w.calls| && w.calls[i].stage == stage
  }

  predicate Enabled(w: World, t: Step) {
    match t
    case Begin => true
    case Insert(i) => InStage(w, i, Start)
    case FailSerialize(i) => InStage(w, i, Inserted)
    case TrySend(i, _) => InStage(w, i, Inserted)
    case Receive(i) => InStage(w, i, Waiting) && w.calls[i].inbox != []
    case Timeout(i) => InStage(w, i, Waiting) && w.calls[i].inbox == []
    case Clean(i) => i < |w.calls| && w.calls[i].stage.Cleaning?
    case Resolve(_, _) => true
    case Disconnect => true
    case Use(id) => id in w.flying && id < |w.calls|
  }

  function At(w: World, i: nat, stage: Stage): World
    requires i < |w.calls|
  {
    w.(calls := w.calls[i := w.calls[i].(stage := stage)])
  }

  function Next(w: World, t: Step): World {
    if !Enabled(w, t) then w
    else
      match t
      case Begin => w.(calls := w.calls + [Call(Start, [], 0)])
      case Insert(i) =>
        if w.pending.Some? then At(w, i, Inserted).(pending := Some(w.pending.value + {i}))
        else At(w, i, Done(DisconnectedBefore))
      case FailSerialize(i) => At(w, i, Cleaning(SerializeFailed))
      case TrySend(i, accepted) => At(w, i, if accepted then Waiting else Cleaning(WriterUnreachable))
      case Receive(i) => At(w, i, Done(w.calls[i].inbox[0]))
      case Timeout(i) => At(w, i, Cleaning(TimedOut))
      case Clean(i) => At(w, i, Done(w.calls[i].stage.answer)).(pending := Without(w.pending, i))
      case Resolve(id, body) =>
        if Holds(w.pending, id) then
          w.(pending := Without(w.pending, id), flying := w.flying[id := Reply(id, body)])
        else w
      case Disconnect =>
        if w.pending.None? then w
        else
          w.(pending := None,
             flying := map id | id in w.flying.Keys + w.pending.value ::
               if id in w.pending.value then Drained(id) else w.flying[id])
      case Use(id) =>
        var call := w.calls[id];
        w.(flying := w.flying - {id},
           calls := w.calls[id := call.(inbox := call.inbox + [w.flying[id]], uses := call.uses + 1)])
  }

  function RunOf(steps: seq<Step>): World {
    if steps == [] then START else Next(RunOf(steps[..|steps| - 1]), steps[|steps| - 1])
  }

  /** What a call that ends gives back: the first reply in its channel, or why there is none. */
  lemma EndsExactly(w: World, i: nat, t: Step)
    requires i < |w.calls| && Enabled(w, t)
    ensures t == Insert(i) ==>
              Next(w, t).calls[i].stage == if w.pending.Some? then Inserted else Done(DisconnectedBefore)
    ensures t == FailSerialize(i) ==> Next(w, t).calls[i].stage == Cleaning(SerializeFailed)
    ensures t == TrySend(i, true) ==> Next(w, t).calls[i].stage == Waiting
    ensures t == TrySend(i, false) ==> Next(w, t).calls[i].stage == Cleaning(WriterUnreachable)
    ensures t == Receive(i) ==> w.calls[i].inbox != [] && Next(w, t).calls[i].stage == Done(w.calls[i].inbox[0])
    ensures t == Timeout(i) ==> Next(w, t).calls[i].stage == Cleaning(TimedOut)
    ensures t == Clean(i) ==>
              w.calls[i].stage.Cleaning? && Next(w, t).calls[i].stage == Done(w.calls[i].stage.answer)
  {
  }

  // ----- what every step keeps -----

  predicate OwnAnswer(answer: Response, i: nat) {
    (answer.Reply? || answer.Drained?) ==> answer.id == i
  }

  /** A call's sender is in at most one place, and until the call gives up or returns it is in
      exactly one: pending, taken and about to be used, or used with its reply waiting. */
  ghost predicate CallSound(w: World, i: nat)
    requires i < |w.calls|
  {
    var c := w.calls[i];
    && (c.stage.Start? ==> !Holds(w.pending, i) && i !in w.flying && c.uses == 0)
    && (c.stage.Done? ==> !Holds(w.pending, i) && OwnAnswer(c.stage.answer, i))
    && (c.stage.Cleaning? ==> !c.stage.answer.Reply? && !c.stage.answer.Drained?)
    && (Holds(w.pending, i) ==> i !in w.flying && c.uses == 0)
    && (i in w.flying ==> c.uses == 0)
    && |c.inbox| == c.uses <= 1
    && (c.uses == 1 ==> (c.inbox[0].Reply? || c.inbox[0].Drained?) && c.inbox[0].id == i)
    && (c.stage.Inserted? || c.stage.Waiting? ==> Holds(w.pending, i) || i in w.flying || c.uses == 1)
  }

  ghost predicate Sound(w: World) {
    && (forall i: nat :: i < |w.calls| ==> CallSound(w, i))
    && (forall i: nat :: Holds(w.pending, i) ==> i < |w.calls|)
    && (forall i: nat :: i in w.flying ==> i < |w.calls|)
    && (forall i: nat :: i in w.flying ==> w.flying[i] == Drained(i) || (w.flying[i].Reply? && w.flying[i].id == i))
  }

  lemma NextCallSound(w: World, t: Step, i: nat)
    requires Sound(w) && i < |w.calls|
    ensures CallSound(Next(w, t), i)
  {
    assert CallSound(w, i);
    if Enabled(w, t) {
      match t
      case Begin =>
      case Insert(_) =>
      case FailSerialize(_) =>
      case TrySend(_, _) =>
      case Receive(_) =>
      case Timeout(_) =>
      case Clean(_) =>
      case Resolve(_, _) =>
      case Disconnect =>
      case Use(_) =>
    }
  }

  lemma NextSound(w: World, t: Step)
    requires Sound(w)
    ensures Sound(Next(w, t))
  {
    var after := Next(w, t);
    forall i: nat | i < |after.calls|
      ensures CallSound(after, i)
    {
      if i < |w.calls| {
        NextCallSound(w, t, i);
      }
    }
    forall i: nat | Holds(after.pending, i)
      ensures i < |after.calls|
    {
      assert Holds(w.pending, i) || t == Insert(i);
    }
    forall i: nat | i in after.flying
      ensures i < |after.calls|
    {
      assert i in w.flying || Holds(w.pending, i);
    }
  }

  lemma {:induction false} AlwaysSound(steps: seq<Step>)
    ensures Sound(RunOf(steps))
  {
    if steps == [] {
    } else {
      AlwaysSound(steps[..|steps| - 1]);
      NextSound(RunOf(steps[..|steps| - 1]), steps[|steps| - 1]);
    }
  }

  // ----- the results -----

  /** Under every interleaving: a call's sender is used at most once; when the call has returned its
      id is gone from pending; and a reply or a drain error it returns is its own. */
  lemma OneReply(steps: seq<Step>, i: nat)
    requires i < |RunOf(steps).calls|
    ensures var w := RunOf(steps);
            var c := w.calls[i];
            && c.uses <= 1
            && (c.stage.Done? ==> !Holds(w.pending, i))
            && (c.stage.Done? && (c.stage.answer.Reply? || c.stage.answer.Drained?) ==> c.stage.answer.id == i)
  {
    AlwaysSound(steps);
    assert CallSound(RunOf(steps), i);
  }

  /** Once a call has returned nothing changes its answer. */
  lemma {:induction false} AnswerIsFinal(steps: seq<Step>, more: seq<Step>, i: nat)
    requires i < |RunOf(steps).calls| && RunOf(steps).calls[i].stage.Done?
    ensures i < |RunOf(steps + more).calls|
    ensures RunOf(steps + more).calls[i].stage == RunOf(steps).calls[i].stage
  {
    if more == [] {
      assert steps + more == steps;
    } else {
      AnswerIsFinal(steps, more[..|more| - 1], i);
      assert (steps + more)[..|steps + more| - 1] == steps + more[..|more| - 1];
    }
  }

  /** After a disconnect nothing is ever pending again, and a call that had not registered yet
      returns the disconnect error. */
  lemma {:induction false} NothingAfterDisconnect(steps: seq<Step>, more: seq<Step>)
    requires RunOf(steps).pending.None?
    ensures RunOf(steps + more).pending.None?
    ensures forall i: nat :: InStage(RunOf(steps + more), i, Start) ==>
              InStage(RunOf(steps + more + [Insert(i)]), i, Done(DisconnectedBefore))
  {
    var all := steps + more;
    if more == [] {
      assert all == steps;
    } else {
      NothingAfterDisconnect(steps, more[..|more| - 1]);
      assert all[..|all| - 1] == steps + more[..|more| - 1];
    }
    forall i: nat | InStage(RunOf(all), i, Start)
      ensures InStage(RunOf(all + [Insert(i)]), i, Done(DisconnectedBefore))
    {
      assert (all + [Insert(i)])[..|all|] == all;
    }
  }

  /** No caller is left behind by a disconnect: a waiting call has its answer in the channel, or the
      drain is about to put it there. */
  lemma DisconnectAnswersAll(steps: seq<Step>, i: nat)
    requires RunOf(steps).pending.None? && InStage(RunOf(steps), i, Waiting)
    ensures var w := RunOf(steps);
            var inbox := w.calls[i].inbox;
            i in w.flying || (inbox != [] && (inbox[0].Reply? || inbox[0].Drained?) && inbox[0].id == i)
  {
    AlwaysSound(steps);
    assert CallSound(RunOf(steps), i);
  }

  /** A reply is lost only when its call gave up first: if the sender taken by a resolve is used
      while the call still waits, the call can return exactly that reply. */
  lemma ReplyReachesWaiting(steps: seq<Step>, i: nat)
    requires i in RunOf(steps).flying && InStage(RunOf(steps), i, Waiting)
    ensures InStage(RunOf(steps + [Use(i), Receive(i)]), i, Done(RunOf(steps).flying[i]))
  {
    AlwaysSound(steps);
    var w := RunOf(steps);
    assert CallSound(w, i);
    var used := steps + [Use(i)];
    var both := steps + [Use(i), Receive(i)];
    assert used[..|steps|] == steps && both[..|steps| + 1] == used;
    assert RunOf(used) == Next(w, Use(i));
    assert RunOf(both) == Next(RunOf(used), Receive(i));
  }

  /** The response is on its way to call `id`, in its channel, or what it returned. */
  predicate Carries(w: World, id: nat, r: Response) {
    (id in w.flying && w.flying[id] == r)
    || (id < |w.calls| && (r in w.calls[id].inbox || w.calls[id].stage == Done(r)))
  }

  lemma NextCarries(w: World, t: Step, id: nat, r: Response)
    requires Sound(w) && (r.Reply? || r.Drained?) && Carries(Next(w, t), id, r)
    ensures Carries(w, id, r) || (r.Reply? && t == Resolve(id, r.body)) || (r.Drained? && t == Disconnect)
  {
    if id < |w.calls| {
      assert CallSound(w, id);
    }
    if Enabled(w, t) {
      match t
      case Begin =>
      case Insert(_) =>
      case FailSerialize(_) =>
      case TrySend(_, _) =>
      case Receive(_) =>
      case Timeout(_) =>
      case Clean(_) =>
      case Resolve(_, _) =>
      case Disconnect =>
      case Use(_) =>
    }
  }

  /** No reply is made up: one that a call returns, or that is under way to it, was sent for it with
      just that body, and a drain error means a disconnect. */
  lemma {:induction false} RepliesWereSent(steps: seq<Step>, id: nat, r: Response)
    requires (r.Reply? || r.Drained?) && Carries(RunOf(steps), id, r)
    ensures if r.Reply? then Resolve(id, r.body) in steps else Disconnect in steps
  {
    var before, t := steps[..|steps| - 1], steps[|steps| - 1];
    AlwaysSound(before);
    NextCarries(RunOf(before), t, id, r);
    if Carries(RunOf(before), id, r) {
      RepliesWereSent(before, id, r);
    }
    assert t in steps && forall x :: x in before ==> x in steps;
  }

  // ----- every call returns -----

  predicate Own(t: Step, i: nat) {
    match t
    case Insert(k) => k == i
    case FailSerialize(k) => k == i
    case TrySend(k, _) => k == i
    case Receive(k) => k == i
    case Timeout(k) => k == i
    case Clean(k) => k == i
    case _ => false
  }

  /** How many steps of its own a call can still take. */
  function Remaining(w: World, i: nat): nat
    requires i < |w.calls|
  {
    match w.calls[i].stage
    case Start => 4
    case Inserted => 3
    case Waiting => 2
    case Cleaning(_) => 1
    case Done(_) => 0
  }

  function OwnStep(w: World, i: nat): Step
    requires i < |w.calls|
  {
    match w.calls[i].stage
    case Start => Insert(i)
    case Inserted => TrySend(i, true)
    case Waiting => if w.calls[i].inbox == [] then Timeout(i) else Receive(i)
    case Cleaning(_) => Clean(i)
    case Done(_) => Begin
  }

  /** No interleaving holds a call back: until it has returned it has a step of its own to take, each
      such step brings it closer, at most four in all, and no other thread's step moves it. */
  lemma CallsReturn(w: World, t: Step, i: nat)
    requires i < |w.calls|
    ensures Remaining(w, i) <= 4
    ensures Remaining(w, i) > 0 <==> Enabled(w, OwnStep(w, i)) && Own(OwnStep(w, i), i)
    ensures i < |Next(w, t).calls|
    ensures if Enabled(w, t) && Own(t, i) then Remaining(Next(w, t), i) < Remaining(w, i)
            else Next(w, t).calls[i].stage == w.calls[i].stage
  {
    if Enabled(w, t) {
      match t
      case Begin =>
      case Insert(_) =>
      case FailSerialize(_) =>
      case TrySend(_, _) =>
      case Receive(_) =>
      case Timeout(_) =>
      case Clean(_) =>
      case Resolve(_, _) =>
      case Disconnect =>
      case Use(_) =>
    }
  }
}
