/**
 GUIs poll one counter to learn that something they show has changed. A change is made under the
 state lock and the counter moves a moment later, outside it; in between any thread may run.
 */
module MuxPolling {
  import opened Prelude
  import opened ClaimProtocol
  import opened MuxHost
  import opened MuxConnection

  /** What a window renders from the state. */
  datatype Shown = Shown(
    connected: bool, model: Model, binds: map<string, string>, overlays: seq<Overlay>, held: set<nat>)

  function ShownOf(h: HostState): Shown {
    Shown(h.connected, h.model, h.binds, h.overlays, h.book.held)
  }

  lemma DeliveryIsNotShown(h: HostState, ops: seq<ClaimOp>)
    ensures ShownOf(Delivered(h, ops)) == ShownOf(h) && Delivered(h, ops).focus == h.focus
    ensures Delivered(h, ops).generation == h.generation
  {
  }

  lemma ReportMoves(h: HostState, r: Report)
    ensures var next := AfterReport(h, r);
            && next.generation >= h.generation
            && (next.generation == h.generation ==> ShownOf(next) == ShownOf(h) && next.focus == h.focus)
  {
    var reported := Reported(h, r);
    DeliveryIsNotShown(reported.(book := ReconcileOps(reported).book), ReconcileOps(reported).ops);
  }

  lemma UpdateMoves(h: HostState, welcome: bool, model: Model)
    ensures AfterMsg(h, Update(welcome, model)).generation > h.generation
  {
    var start := if welcome then Welcomed(h.(model := model)) else h.(model := model);
    DeliveryIsNotShown(start.(book := ReconcileOps(start).book), ReconcileOps(start).ops);
  }

  lemma MsgMoves(h: HostState, m: Msg)
    ensures AfterMsg(h, m).generation >= h.generation
    ensures AfterMsg(h, m).generation == h.generation ==> AfterMsg(h, m) == h
  {
    match m
    case Error =>
    case FocusSidebar(_) =>
    case ShowOverlay(_, _, _) =>
    case OverlayClosed(_) =>
    case Update(welcome, model) => UpdateMoves(h, welcome, model);
  }

  /** A step that leaves the generation leaves all that is shown, and no focus request is new. */
  lemma StepMoves(s: System, t: Step)
    ensures var before, after := s.host, Next(s, t).host;
            && after.generation >= before.generation
            && (after.generation == before.generation ==>
                  ShownOf(after) == ShownOf(before) && after.focus <= before.focus)
  {
    match t
    case Gui(r) => ReportMoves(s.host, r);
    case Event(m) => MsgMoves(s.host, m);
    case _ =>
  }

  // ----- the counter lags behind -----

  /** `owed` are the moves of the counter that threads have still to make. */
  datatype Polled = Polled(sys: System, owed: nat)

  datatype Act = Change(step: Step) | Move

  ghost function After(p: Polled, a: Act): Polled {
    match a
    case Change(t) =>
      var moved := Next(p.sys, t).host.generation - p.sys.host.generation;
      Polled(Next(p.sys, t), if moved > 0 then p.owed + moved else p.owed)
    case Move => if p.owed > 0 then p.(owed := p.owed - 1) else p
  }

  ghost function Run(acts: seq<Act>): Polled {
    if acts == [] then Polled(BOOT, 0) else After(Run(acts[..|acts| - 1]), acts[|acts| - 1])
  }

  /** What a window reads. */
  function Counter(p: Polled): int {
    p.sys.host.generation - p.owed
  }

  lemma ActMoves(p: Polled, a: Act)
    ensures var before, after := p.sys.host, After(p, a).sys.host;
            && Counter(p) <= Counter(After(p, a)) && after.generation >= before.generation
            && (after.generation == before.generation ==>
                  ShownOf(after) == ShownOf(before) && after.focus <= before.focus)
  {
    if a.Change? {
      StepMoves(p.sys, a.step);
    }
  }

  lemma {:induction false} RunMoves(acts: seq<Act>, more: seq<Act>)
    ensures var p, q := Run(acts), Run(acts + more);
            && Counter(p) <= Counter(q) && p.sys.host.generation <= q.sys.host.generation
            && (q.sys.host.generation == p.sys.host.generation ==>
                  ShownOf(q.sys.host) == ShownOf(p.sys.host) && q.sys.host.focus <= p.sys.host.focus)
  {
    if more == [] {
      assert acts + more == acts;
    } else {
      var shorter := more[..|more| - 1];
      RunMoves(acts, shorter);
      assert (acts + more)[..|acts + more| - 1] == acts + shorter;
      ActMoves(Run(acts + shorter), more[|more| - 1]);
    }
  }

  /** Main result. A window reads the counter, then the state, and later finds the counter where it
      was, with no move of it still owed. Then what it read is what there is to show, and no focus
      request has come since; whatever the threads did in between. */
  lemma NothingMissed(start: seq<Act>, toRead: seq<Act>, toPoll: seq<Act>)
    requires Counter(Run(start)) == Counter(Run(start + toRead + toPoll))
    requires Run(start + toRead + toPoll).owed == 0
    ensures var read, polled := Run(start + toRead).sys.host, Run(start + toRead + toPoll).sys.host;
            ShownOf(read) == ShownOf(polled) && polled.focus <= read.focus
  {
    RunMoves(start, toRead);
    RunMoves(start + toRead, toPoll);
  }
}
