/**
 The comux host around its locks, as a step system. A step is one critical section of one thread:
 a GUI thread reports or answers, the link's reader thread delivers an event, the connection thread
 opens, installs, unlinks and clears. Steps of the threads interleave freely, limited only by what
 a link promises: events only between opening and `Closed`, `Closed` once and last, and the next
 connection opens after the previous one is torn down.
 */
module MuxConnection {
  import opened Prelude
  import opened ClaimProtocol
  import opened ClaimLedger
  import opened MuxHost

  datatype Where =
    | Down
    | Opening(n: nat, closed: bool)  // events may arrive, no link installed yet
    | Linked(n: nat, closed: bool)
    | Unlinked(n: nat)               // link dropped, parked messages not yet cleared

  /** `made` records the claim messages reconciled during each connection and `stray` those
      reconciled outside any; `epoch` the inputs of the claim protocol since it was last reset. */
  datatype System = System(
    host: HostState, place: Where, count: nat,
    made: map<nat, seq<ClaimOp>>, stray: seq<ClaimOp>, epoch: seq<Input>)

  const BOOT := System(START, Down, 0, map[], [], [])

  datatype Step =
    | Gui(report: Report)
    | Answer(result: OverlayResult)
    | Open
    | OpenFails
    | Event(msg: Msg)
    | Close
    | InstallLink
    | DropLink
    | ClearParked

  predicate Enabled(s: System, t: Step) {
    match t
    case Gui(_) => true
    case Answer(_) => true
    case Open => s.place.Down?
    case OpenFails => s.place.Down?
    case Event(_) => (s.place.Opening? || s.place.Linked?) && !s.place.closed
    case Close => (s.place.Opening? || s.place.Linked?) && !s.place.closed
    case InstallLink => s.place.Opening?
    case DropLink => s.place.Linked? && s.place.closed
    case ClearParked => s.place.Unlinked?
  }

  function Record(s: System, ops: seq<ClaimOp>): System {
    if s.place.Down? then s.(stray := s.stray + ops)
    else s.(made := s.made[s.place.n := Wire(s.made, s.place.n) + ops])
  }

  ghost function Claiming(s: System, h: HostState, past: seq<Input>): System {
    Record(s, ReconcileOps(h).ops).(epoch := past + [Reconcile(h.model, ServedTags(h.binds, h.served))])
  }

  /** What a model update reconciles from, and the claim inputs it continues. */
  function Updated(s: System, welcome: bool, model: Model): HostState {
    if welcome then Welcomed(s.host.(model := model)) else s.host.(model := model)
  }

  function Continued(s: System, welcome: bool): seq<Input> {
    if welcome then [] else s.epoch
  }

  ghost function Next(s: System, t: Step): System {
    match t
    case Gui(r) => Claiming(s, Reported(s.host, r), s.epoch).(host := AfterReport(s.host, r))
    case Answer(r) => s.(host := AfterAnswer(s.host, r))
    case Open => s.(place := Opening(s.count, false), count := s.count + 1)
    case OpenFails => s.(host := AfterOpenFailed(s.host))
    case Event(Update(welcome, model)) =>
      Claiming(s, Updated(s, welcome, model), Continued(s, welcome)).(host := AfterMsg(s.host, t.msg))
    case Event(Error) => s.(host := AfterMsg(s.host, t.msg), epoch := s.epoch + [Refuse])
    case Event(_) => s.(host := AfterMsg(s.host, t.msg))
    case Close =>
      var place :=
        if s.place.Opening? then Opening(s.place.n, true)
        else if s.place.Linked? then Linked(s.place.n, true)
        else s.place;
      s.(host := AfterClosed(s.host), place := place, epoch := [])
    case InstallLink =>
      if s.place.Opening? then
        s.(host := AfterInstall(s.host, s.place.n), place := Linked(s.place.n, s.place.closed))
      else s
    case DropLink => if s.place.Linked? then s.(host := AfterUnlink(s.host), place := Unlinked(s.place.n)) else s
    case ClearParked => s.(host := AfterClear(s.host), place := Down)
  }

  ghost predicate Possible(steps: seq<Step>) {
    steps == []
    || (Possible(steps[..|steps| - 1]) && Enabled(Reached(steps[..|steps| - 1]), steps[|steps| - 1]))
  }

  ghost function Reached(steps: seq<Step>): System {
    if steps == [] then BOOT else Next(Reached(steps[..|steps| - 1]), steps[|steps| - 1])
  }

  // ----- invariants -----

  /** No connection is alive for the claim protocol: nothing is covered and no list is known. */
  predicate Quiet(h: HostState) {
    h.book == EMPTY_BOOK && h.model.clients.None?
  }

  predicate Alive(place: Where) {
    (place.Opening? || place.Linked?) && !place.closed
  }

  /** Every message reconciled during connection `n` is on its link or parked, in order. */
  predicate Carried(s: System, n: nat) {
    var parked := if s.place == Opening(n, true) || s.place == Opening(n, false) then s.host.unsent else [];
    Wire(s.made, n) == Wire(s.host.wires, n) + parked
  }

  ghost predicate Orderly(s: System) {
    && (s.host.link == if s.place.Linked? then Some(s.place.n) else None)
    && (!s.place.Opening? ==> s.host.unsent == [])
    && (s.place.Opening? ==> s.place.n !in s.host.wires)
    && (!s.place.Down? ==> s.place.n < s.count)
    && (forall n :: n in s.host.wires || n in s.made ==> n < s.count)
    && s.stray == []
    && (!Alive(s.place) ==> Quiet(s.host))
  }

  ghost predicate OverlaysSound(h: HostState) {
    && (forall i, j :: 0 <= i < j < |h.overlays| ==> h.overlays[i].id != h.overlays[j].id)
    && (forall o :: o in h.overlays ==> o.id !in h.answered)
  }

  /** The plumbing is orderly, every connection's messages are accounted for, and the book is what
      the claim inputs of this epoch make it. */
  ghost predicate Accounted(s: System) {
    && Orderly(s)
    && (forall n: nat :: Carried(s, n))
    && s.host.book == RunOf(s.epoch).book
  }

  ghost predicate Sound(s: System) {
    Accounted(s) && OverlaysSound(s.host)
  }

  lemma QuietReconcile(h: HostState)
    requires Quiet(h)
    ensures ReconcileOps(h) == Outcome(EMPTY_BOOK, [])
  {
    assert Ascending({}) == [];
  }

  lemma EpochSnoc(past: seq<Input>, h: HostState)
    requires h.book == RunOf(past).book
    ensures ReconcileOps(h).book == RunOf(past + [Reconcile(h.model, ServedTags(h.binds, h.served))]).book
  {
    var i := Reconcile(h.model, ServedTags(h.binds, h.served));
    assert (past + [i])[..|past|] == past;
  }

  /** Sending or parking messages as they are recorded keeps every connection's account. */
  lemma RecordDelivered(s: System, h: HostState, ops: seq<ClaimOp>, n: nat)
    requires Orderly(s) && Carried(s, n)
    requires h.link == s.host.link && h.unsent == s.host.unsent && h.wires == s.host.wires
    requires !Alive(s.place) ==> ops == []
    ensures Carried(Record(s, ops).(host := Delivered(h, ops)), n)
  {
    var next := Record(s, ops).(host := Delivered(h, ops));
    if ops == [] {
      assert Wire(next.made, n) == Wire(s.made, n);
    } else if n == s.place.n && s.place.Opening? {
      assert Wire(s.made, n) + ops == Wire(s.host.wires, n) + (s.host.unsent + ops);
    }
  }

  lemma OrderlyDelivered(s: System, h: HostState, ops: seq<ClaimOp>)
    requires Orderly(s)
    requires h.link == s.host.link && h.unsent == s.host.unsent && h.wires == s.host.wires
    requires !Alive(s.place) ==> ops == [] && Quiet(h)
    ensures Orderly(Record(s, ops).(host := Delivered(h, ops)))
  {
    if s.place.Down? {
      assert s.stray + ops == [];
    }
  }

  lemma AccountsDelivered(s: System, h: HostState, ops: seq<ClaimOp>)
    requires Orderly(s) && forall n: nat :: Carried(s, n)
    requires h.link == s.host.link && h.unsent == s.host.unsent && h.wires == s.host.wires
    requires !Alive(s.place) ==> ops == [] && Quiet(h)
    ensures var next := Record(s, ops).(host := Delivered(h, ops));
            Orderly(next) && forall n: nat :: Carried(next, n)
  {
    OrderlyDelivered(s, h, ops);
    forall n: nat
      ensures Carried(Record(s, ops).(host := Delivered(h, ops)), n)
    {
      RecordDelivered(s, h, ops, n);
    }
  }

  /** The epoch is no part of the plumbing. */
  lemma EpochAside(s: System, epoch: seq<Input>)
    requires Orderly(s) && forall n: nat :: Carried(s, n)
    requires s.host.book == RunOf(epoch).book
    ensures Accounted(s.(epoch := epoch))
  {
    forall n: nat
      ensures Carried(s.(epoch := epoch), n)
    {
      assert Carried(s, n);
    }
  }

  /** One reconcile under the state lock keeps the invariants. */
  lemma ClaimingSound(s: System, h: HostState, past: seq<Input>)
    requires Orderly(s) && forall n: nat :: Carried(s, n)
    requires h.book == RunOf(past).book
    requires h.link == s.host.link && h.unsent == s.host.unsent && h.wires == s.host.wires
    requires !Alive(s.place) ==> Quiet(h)
    ensures Accounted(Claiming(s, h, past).(host := ReconciledHost(h)))
  {
    EpochSnoc(past, h);
    if !Alive(s.place) {
      QuietReconcile(h);
    }
    var o := ReconcileOps(h);
    AccountsDelivered(s, h.(book := o.book), o.ops);
    var done := Claiming(s, h, past).(host := ReconciledHost(h));
    EpochAside(Record(s, o.ops).(host := Delivered(h.(book := o.book), o.ops)), done.epoch);
  }

  lemma {:induction false} WithoutKeepsDistinct(overlays: seq<Overlay>, id: nat)
    requires forall i, j :: 0 <= i < j < |overlays| ==> overlays[i].id != overlays[j].id
    ensures var r := Without(overlays, id);
            forall i, j :: 0 <= i < j < |r| ==> r[i].id != r[j].id
  {
    if overlays == [] {
    } else {
      var keep := (o: Overlay) => o.id != id;
      WithoutKeepsDistinct(overlays[1..], id);
      var rest := Filter(overlays[1..], keep);
      assert Without(overlays[1..], id) == rest;
      forall j | 0 <= j < |rest|
        ensures rest[j].id != overlays[0].id
      {
        assert rest[j] in overlays[1..];
      }
    }
  }

  lemma RespeccedSound(h: HostState, id: nat, spec: string)
    requires OverlaysSound(h)
    ensures OverlaysSound(h.(overlays := Respecced(h.overlays, id, spec)))
  {
    var r := Respecced(h.overlays, id, spec);
    forall o | o in r
      ensures o.id !in h.answered
    {
      var i :| 0 <= i < |r| && r[i] == o;
      assert h.overlays[i] in h.overlays;
    }
  }

  lemma AppendedSound(h: HostState, o: Overlay)
    requires OverlaysSound(h) && o.id !in h.answered && !Shows(h.overlays, o.id)
    ensures OverlaysSound(h.(overlays := h.overlays + [o]))
  {
    forall i | 0 <= i < |h.overlays|
      ensures h.overlays[i].id != o.id
    {
      assert h.overlays[i] in h.overlays;
    }
  }

  lemma ShownSound(h: HostState, id: nat, client: nat, spec: string)
    requires OverlaysSound(h)
    ensures OverlaysSound(AfterMsg(h, ShowOverlay(id, client, spec)))
  {
    if id !in h.answered {
      if Shows(h.overlays, id) {
        RespeccedSound(h, id, spec);
      } else {
        AppendedSound(h, Overlay(id, client, spec));
      }
    }
  }

  lemma OverlaysStaySound(h: HostState, m: Msg)
    requires OverlaysSound(h)
    ensures OverlaysSound(AfterMsg(h, m))
  {
    match m
    case Error =>
    case FocusSidebar(_) =>
    case OverlayClosed(id) => WithoutKeepsDistinct(h.overlays, id);
    case ShowOverlay(id, client, spec) => ShownSound(h, id, client, spec);
    case Update(welcome, model) =>
      ReconcileLeavesOverlays(if welcome then Welcomed(h.(model := model)) else h.(model := model));
  }

  lemma ReconcileLeavesOverlays(h: HostState)
    ensures ReconciledHost(h).overlays == h.overlays && ReconciledHost(h).answered == h.answered
  {
  }

  /** The generation counter takes no part in the accounts. */
  lemma BumpedAccounts(s: System, g: nat)
    requires Accounted(s)
    ensures Accounted(s.(host := s.host.(generation := g)))
  {
    forall n: nat
      ensures Carried(s.(host := s.host.(generation := g)), n)
    {
      assert Carried(s, n);
    }
  }

  lemma GuiIsClaiming(s: System, r: Report)
    ensures var h := Reported(s.host, r);
            var mid := Claiming(s, h, s.epoch).(host := ReconciledHost(h));
            var next := Next(s, Gui(r));
            next == mid.(host := mid.host.(generation := next.host.generation))
  {
  }

  lemma GuiSound(s: System, r: Report)
    requires Sound(s)
    ensures Sound(Next(s, Gui(r)))
  {
    var h := Reported(s.host, r);
    ClaimingSound(s, h, s.epoch);
    GuiIsClaiming(s, r);
    BumpedAccounts(Claiming(s, h, s.epoch).(host := ReconciledHost(h)), Next(s, Gui(r)).host.generation);
    ReconcileLeavesOverlays(h);
  }

  /** A model update just before the generation moves. */
  ghost function Reconciling(s: System, welcome: bool, model: Model): System {
    var h := Updated(s, welcome, model);
    Claiming(s, h, Continued(s, welcome)).(host := ReconciledHost(h))
  }

  lemma UpdateIsClaiming(s: System, welcome: bool, model: Model)
    ensures var mid := Reconciling(s, welcome, model);
            Next(s, Event(Update(welcome, model))) == mid.(host := mid.host.(generation := mid.host.generation + 1))
  {
  }

  lemma ReconcilingAccounts(s: System, welcome: bool, model: Model)
    requires Accounted(s) && Alive(s.place)
    ensures Accounted(Reconciling(s, welcome, model))
  {
    var h := Updated(s, welcome, model);
    assert h.book == RunOf(Continued(s, welcome)).book;
    ClaimingSound(s, h, Continued(s, welcome));
  }

  lemma UpdateAccounts(s: System, welcome: bool, model: Model)
    requires Accounted(s) && Alive(s.place)
    ensures Accounted(Next(s, Event(Update(welcome, model))))
  {
    ReconcilingAccounts(s, welcome, model);
    UpdateIsClaiming(s, welcome, model);
    var mid := Reconciling(s, welcome, model);
    BumpedAccounts(mid, mid.host.generation + 1);
  }

  lemma UpdateSound(s: System, welcome: bool, model: Model)
    requires Sound(s) && Alive(s.place)
    ensures Sound(Next(s, Event(Update(welcome, model))))
  {
    UpdateAccounts(s, welcome, model);
    OverlaysStaySound(s.host, Update(welcome, model));
    assert Next(s, Event(Update(welcome, model))).host == AfterMsg(s.host, Update(welcome, model));
  }

  /** The accounts depend on the plumbing alone. */
  lemma SameAccounts(s: System, t: System)
    requires t.host.link == s.host.link && t.host.unsent == s.host.unsent && t.host.wires == s.host.wires
    requires t.place == s.place && t.count == s.count && t.made == s.made && t.stray == s.stray
    requires Alive(t.place) || Quiet(t.host)
    requires Orderly(s) && forall n: nat :: Carried(s, n)
    ensures Orderly(t) && forall n: nat :: Carried(t, n)
  {
    forall n: nat
      ensures Carried(t, n)
    {
      assert Carried(s, n);
    }
  }

  lemma MsgLeavesPlumbing(h: HostState, m: Msg)
    requires !m.Update?
    ensures var next := AfterMsg(h, m);
            next.unsent == h.unsent && next.wires == h.wires && next.link == h.link
  {
    match m
    case Error =>
    case FocusSidebar(_) =>
    case OverlayClosed(_) =>
    case ShowOverlay(_, _, _) =>
  }

  lemma OtherEventAccounts(s: System, m: Msg)
    requires Sound(s) && Alive(s.place) && !m.Update?
    ensures Accounted(Next(s, Event(m)))
  {
    MsgLeavesPlumbing(s.host, m);
    SameAccounts(s, Next(s, Event(m)));
    if m.Error? {
      assert (s.epoch + [Refuse])[..|s.epoch|] == s.epoch;
    }
  }

  lemma OtherEventSound(s: System, m: Msg)
    requires Sound(s) && Alive(s.place) && !m.Update?
    ensures Sound(Next(s, Event(m)))
  {
    OtherEventAccounts(s, m);
    OverlaysStaySound(s.host, m);
    assert Next(s, Event(m)).host == AfterMsg(s.host, m);
  }

  lemma PlumbingSound(s: System, t: Step)
    requires Sound(s) && Enabled(s, t)
    requires t.Open? || t.OpenFails? || t.Close? || t.InstallLink? || t.DropLink? || t.ClearParked?
    ensures Orderly(Next(s, t)) && forall n: nat :: Carried(Next(s, t), n)
  {
    var next := Next(s, t);
    forall n: nat
      ensures Carried(next, n)
    {
      assert Carried(s, n);
    }
  }

  lemma NextSound(s: System, t: Step)
    requires Sound(s) && Enabled(s, t)
    ensures Sound(Next(s, t))
  {
    match t
    case Gui(r) => GuiSound(s, r);
    case Event(m) =>
      if m.Update? {
        UpdateSound(s, m.welcome, m.model);
      } else {
        OtherEventSound(s, m);
      }
    case Answer(r) =>
      WithoutKeepsDistinct(s.host.overlays, r.overlay);
      SameAccounts(s, Next(s, t));
    case _ => PlumbingSound(s, t);
  }

  lemma {:induction false} AlwaysSound(steps: seq<Step>)
    requires Possible(steps)
    ensures Sound(Reached(steps))
  {
    if steps == [] {
    } else {
      AlwaysSound(steps[..|steps| - 1]);
      NextSound(Reached(steps[..|steps| - 1]), steps[|steps| - 1]);
    }
  }

  /** Main result. Under every interleaving, the messages reconciled during a connection are, in
      reconcile order and without loss or addition, those on its own link followed by those still
      parked for it; none is ever reconciled outside a connection; and the host covers exactly the
      attachments whose claims stand in the claim log of the current epoch. */
  lemma LinksCarryTheirOwn(steps: seq<Step>)
    requires Possible(steps)
    ensures var s := Reached(steps);
            && (forall n: nat :: Wire(s.made, n)
                  == Wire(s.host.wires, n)
                     + if s.place.Opening? && s.place.n == n then s.host.unsent else [])
            && (!s.place.Opening? ==> s.host.unsent == [])
            && s.stray == []
            && Legal(RunOf(s.epoch).log)
            && (forall a: nat :: s.host.book.Covers(a) <==> !Judged(RunOf(s.epoch).log, a).phase.Idle?)
  {
    AlwaysSound(steps);
    var s := Reached(steps);
    LedgerAgrees(s.epoch);
    forall n: nat
      ensures Wire(s.made, n)
              == Wire(s.host.wires, n) + if s.place.Opening? && s.place.n == n then s.host.unsent else []
    {
      assert Carried(s, n);
    }
  }

  /** A step that starts a new epoch of overlay ids. */
  predicate StartsEpoch(t: Step) {
    t.Close? || (t.Event? && t.msg.Update? && t.msg.welcome)
  }

  lemma MsgKeepsAnswers(h: HostState, m: Msg)
    requires !(m.Update? && m.welcome)
    ensures h.answered <= AfterMsg(h, m).answered
  {
    if m.Update? {
      ReconcileLeavesOverlays(h.(model := m.model));
    }
  }

  lemma AnswersKept(s: System, t: Step)
    requires !StartsEpoch(t)
    ensures s.host.answered <= Next(s, t).host.answered
  {
    match t
    case Gui(r) => ReconcileLeavesOverlays(Reported(s.host, r));
    case Event(m) => MsgKeepsAnswers(s.host, m);
    case _ =>
  }

  /** Shown overlay ids are distinct, and an overlay answered once never shows again in its epoch. */
  lemma {:induction false} AnsweredNeverReturns(steps: seq<Step>, more: seq<Step>)
    requires Possible(steps + more)
    requires forall t :: t in more ==> !StartsEpoch(t)
    ensures var before, after := Reached(steps).host, Reached(steps + more).host;
            && before.answered <= after.answered
            && (forall id :: id in before.answered ==> !Shows(after.overlays, id))
            && (forall i, j :: 0 <= i < j < |after.overlays| ==> after.overlays[i].id != after.overlays[j].id)
    decreases |more|
  {
    AlwaysSound(steps + more);
    if more == [] {
      assert steps + more == steps;
    } else {
      var shorter := more[..|more| - 1];
      var all := steps + more;
      assert all[..|all| - 1] == steps + shorter;
      AnsweredNeverReturns(steps, shorter);
      AnswersKept(Reached(steps + shorter), more[|more| - 1]);
      assert OverlaysSound(Reached(all).host);
    }
  }
}
