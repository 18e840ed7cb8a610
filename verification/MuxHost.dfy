/**
 The state a comux host guards with its two locks, and the critical sections that change it: a GUI
 report, an answered overlay, one event of the server link, installing a link, and the two halves
 of tearing it down. `HostState` is the value, `Host` the object that updates it in place.
 */
module MuxHost {
  import opened Prelude
  import opened ClaimProtocol

  datatype Overlay = Overlay(id: nat, client: nat, spec: string)

  /** What the user chose or typed for an overlay. */
  datatype OverlayResult = OverlayResult(overlay: nat, choice: Option<string>, text: Option<string>)

  /** A change reported by the GUI. */
  datatype Report =
    | Bind(panel: string, tag: string)
    | Unbind(panel: string)
    | Serve(panels: set<string>)

  /** A message of the server link. `Update` carries the mirrored model after it was applied; a
      welcome also starts a new epoch. */
  datatype Msg =
    | Error
    | FocusSidebar(attachment: Option<nat>)
    | ShowOverlay(id: nat, client: nat, spec: string)
    | OverlayClosed(id: nat)
    | Update(welcome: bool, model: Model)

  /** `wires` and `results` record what each link was given to send. */
  datatype HostState = HostState(
    generation: nat,
    connected: bool,
    model: Model,
    binds: map<string, string>,
    served: set<string>,
    book: Book,
    overlays: seq<Overlay>,
    answered: set<nat>,
    focus: set<nat>,
    link: Option<nat>,
    unsent: seq<ClaimOp>,
    wires: map<nat, seq<ClaimOp>>,
    results: map<nat, seq<OverlayResult>>)

  const NO_MODEL := Model(None, false)

  const START := HostState(1, false, NO_MODEL, map[], {}, EMPTY_BOOK, [], {}, {}, None, [], map[], map[])

  function ServedTags(binds: map<string, string>, served: set<string>): set<string> {
    set p | p in served && p in binds :: binds[p]
  }

  function Wire(wires: map<nat, seq<ClaimOp>>, n: nat): seq<ClaimOp> {
    GetOr(wires, n, [])
  }

  // ----- what each critical section does -----

  function Delivered(h: HostState, ops: seq<ClaimOp>): HostState {
    if ops == [] then h
    else match h.link
    case Some(n) => h.(wires := h.wires[n := Wire(h.wires, n) + ops])
    case None => h.(unsent := h.unsent + ops)
  }

  ghost function ReconcileOps(h: HostState): Outcome {
    Reconciled(h.book, h.model, ServedTags(h.binds, h.served))
  }

  ghost function ReconciledHost(h: HostState): HostState {
    Delivered(h.(book := ReconcileOps(h).book), ReconcileOps(h).ops)
  }

  function Reported(h: HostState, r: Report): HostState {
    match r
    case Bind(p, t) => h.(binds := h.binds[p := t])
    case Unbind(p) => h.(binds := h.binds - {p}, served := h.served - {p})
    case Serve(ps) => h.(served := ps)
  }

  /** A report moves the generation exactly when bindings, served panels or held claims moved. */
  ghost function AfterReport(h: HostState, r: Report): HostState {
    var next := ReconciledHost(Reported(h, r));
    var moved := next.binds != h.binds || next.served != h.served || next.book.held != h.book.held;
    next.(generation := h.generation + if moved then 1 else 0)
  }

  function Without(overlays: seq<Overlay>, id: nat): (r: seq<Overlay>)
    ensures forall o :: o in r <==> o in overlays && o.id != id
  {
    FilterMembers(overlays, (o: Overlay) => o.id != id);
    Filter(overlays, (o: Overlay) => o.id != id)
  }

  function Results(h: HostState, n: nat): seq<OverlayResult> {
    GetOr(h.results, n, [])
  }

  /** The overlay closes at once; the answer goes to the link installed at that moment, if any. */
  function AfterAnswer(h: HostState, r: OverlayResult): HostState {
    h.(overlays := Without(h.overlays, r.overlay),
       answered := h.answered + {r.overlay},
       results := if h.link.Some? then h.results[h.link.value := Results(h, h.link.value) + [r]] else h.results,
       generation := h.generation + 1)
  }

  /** Replaces the spec of the first overlay with this id. */
  function Respecced(overlays: seq<Overlay>, id: nat, spec: string): (r: seq<Overlay>)
    ensures |r| == |overlays|
    ensures forall i :: 0 <= i < |r| ==> r[i].id == overlays[i].id && r[i].client == overlays[i].client
  {
    if overlays == [] then []
    else if overlays[0].id == id then [overlays[0].(spec := spec)] + overlays[1..]
    else [overlays[0]] + Respecced(overlays[1..], id, spec)
  }

  predicate Shows(overlays: seq<Overlay>, id: nat) {
    exists o :: o in overlays && o.id == id
  }

  function ResetConnection(h: HostState): HostState {
    h.(overlays := [], answered := {}, focus := {})
  }

  function Welcomed(h: HostState): HostState {
    ResetConnection(h).(book := EMPTY_BOOK, connected := true)
  }

  function Bumped(h: HostState): HostState {
    h.(generation := h.generation + 1)
  }

  ghost function AfterMsg(h: HostState, m: Msg): HostState {
    match m
    case Error => Bumped(h.(book := RefusedBook(h.book)))
    case FocusSidebar(c) =>
      if c.Some? && h.book.Covers(c.value) then Bumped(h.(focus := h.focus + {c.value})) else h
    case ShowOverlay(id, client, spec) =>
      if id in h.answered then h
      else if Shows(h.overlays, id) then Bumped(h.(overlays := Respecced(h.overlays, id, spec)))
      else if h.book.Covers(client) then Bumped(h.(overlays := h.overlays + [Overlay(id, client, spec)]))
      else Bumped(h)
    case OverlayClosed(id) => Bumped(h.(overlays := Without(h.overlays, id)))
    case Update(welcome, model) =>
      var h1 := h.(model := model);
      var h2 := if welcome then Welcomed(h1) else h1;
      Bumped(ReconciledHost(h2))
  }

  function AfterClosed(h: HostState): HostState {
    Bumped(ResetConnection(h).(connected := false, model := NO_MODEL, book := EMPTY_BOOK))
  }

  function AfterInstall(h: HostState, n: nat): HostState {
    h.(link := Some(n), unsent := [], wires := h.wires[n := Wire(h.wires, n) + h.unsent])
  }

  function AfterUnlink(h: HostState): HostState {
    h.(link := None)
  }

  function AfterClear(h: HostState): HostState {
    h.(unsent := [])
  }

  function AfterOpenFailed(h: HostState): HostState {
    Bumped(h.(connected := false))
  }

  // ----- what is served and shown -----

  /** A tag is served when a served panel is bound to it. */
  lemma ServedExactly(binds: map<string, string>, served: set<string>, tag: string)
    ensures tag in ServedTags(binds, served) <==> exists p :: p in served && p in binds && binds[p] == tag
  {
  }

  /** Binding a panel binds it alone, unbinding it also stops serving it, and serving replaces the set of
      panels served. */
  lemma ReportsExactly(h: HostState, p: string, t: string, ps: set<string>, q: string)
    ensures var b := Reported(h, Bind(p, t));
            b.served == h.served && (q in b.binds <==> q == p || q in h.binds)
            && (q in b.binds ==> b.binds[q] == if q == p then t else h.binds[q])
    ensures var u := Reported(h, Unbind(p));
            (q in u.binds <==> q in h.binds && q != p) && (q in u.binds ==> u.binds[q] == h.binds[q])
            && (q in u.served <==> q in h.served && q != p)
    ensures var s := Reported(h, Serve(ps)); s.binds == h.binds && s.served == ps
    ensures var b, u, s := Reported(h, Bind(p, t)), Reported(h, Unbind(p)), Reported(h, Serve(ps));
            b.book == u.book == s.book == h.book && b.model == u.model == s.model == h.model
            && b.overlays == u.overlays == s.overlays == h.overlays
  {
  }

  /** A report moves the counter by one if it changed a binding, the panels served or what is held, and
      not otherwise. */
  lemma CounterMovesExactly(h: HostState, r: Report)
    ensures var next := AfterReport(h, r);
            next.generation == h.generation
              + if next.binds == h.binds && next.served == h.served && next.book.held == h.book.held then 0 else 1
  {
  }

  lemma UpdatedBehind<T>(x: T, rest: seq<T>, i: nat, y: T)
    requires i < |rest|
    ensures [x] + rest[i := y] == ([x] + rest)[i + 1 := y]
  {
  }

  /** The first overlay with the id gets the new content, and nothing else changes. */
  lemma {:induction false} RespecsFirst(overlays: seq<Overlay>, id: nat, spec: string, i: nat)
    requires i < |overlays| && overlays[i].id == id && forall k :: 0 <= k < i ==> overlays[k].id != id
    ensures Respecced(overlays, id, spec) == overlays[i := overlays[i].(spec := spec)]
  {
    assert overlays == [overlays[0]] + overlays[1..];
    if i == 0 {
    } else {
      RespecsFirst(overlays[1..], id, spec, i - 1);
      UpdatedBehind(overlays[0], overlays[1..], i - 1, overlays[i].(spec := spec));
    }
  }

  /** An overlay that is shown keeps its place and gets the new content, unless it was answered. */
  lemma ShownAgain(h: HostState, id: nat, client: nat, spec: string, i: nat)
    requires i < |h.overlays| && h.overlays[i].id == id && forall k :: 0 <= k < i ==> h.overlays[k].id != id
    ensures AfterMsg(h, ShowOverlay(id, client, spec)).overlays
            == if id in h.answered then h.overlays else h.overlays[i := h.overlays[i].(spec := spec)]
  {
    assert h.overlays[i] in h.overlays;
    RespecsFirst(h.overlays, id, spec, i);
  }

  /** A new one goes last, and only if it was not answered and its attachment is held or claimed. */
  lemma ShownFirst(h: HostState, id: nat, client: nat, spec: string)
    requires forall i :: 0 <= i < |h.overlays| ==> h.overlays[i].id != id
    ensures AfterMsg(h, ShowOverlay(id, client, spec)).overlays
            == h.overlays + if id !in h.answered && (client in h.book.held || h.book.pending == Some(client))
                            then [Overlay(id, client, spec)] else []
  {
  }

  /** Closed by the server or answered here, an overlay goes; only an answer is remembered. */
  lemma OverlayGoes(h: HostState, r: OverlayResult, o: Overlay)
    ensures o in AfterMsg(h, OverlayClosed(r.overlay)).overlays <==> o in h.overlays && o.id != r.overlay
    ensures AfterMsg(h, OverlayClosed(r.overlay)).answered == h.answered
    ensures o in AfterAnswer(h, r).overlays <==> o in h.overlays && o.id != r.overlay
    ensures AfterAnswer(h, r).answered == h.answered + {r.overlay}
    ensures forall n: nat ::
              Results(AfterAnswer(h, r), n) == if h.link == Some(n) then Results(h, n) + [r] else Results(h, n)
  {
  }

  /** A focus request counts for an attachment held or claimed, and for no other. */
  lemma FocusExactly(h: HostState, attachment: Option<nat>, a: nat)
    ensures a in AfterMsg(h, FocusSidebar(attachment)).focus <==>
            a in h.focus || (attachment == Some(a) && (a in h.book.held || h.book.pending == Some(a)))
  {
  }

  /** A welcome and the end of a link both forget the claims, the overlays, the answers and the focus
      requests; only the welcome leaves a connection. */
  lemma EpochsStartAfresh(h: HostState)
    ensures var w, c := Welcomed(h), AfterClosed(h);
            && w.connected && !c.connected && c.model == Model(None, false) && w.model == h.model
            && w.book == c.book == Book({}, None, {}, map[])
            && w.overlays == c.overlays == [] && w.answered == c.answered == {} && w.focus == c.focus == {}
            && w.binds == c.binds == h.binds && w.served == c.served == h.served
            && w.link == c.link == h.link && w.unsent == c.unsent == h.unsent && w.wires == c.wires == h.wires
    ensures !AfterOpenFailed(h).connected && AfterOpenFailed(h).book == h.book
  {
  }

  // ----- the object -----

  class Host {
    var generation: nat
    var connected: bool
    var model: Model
    var binds: map<string, string>
    var served: set<string>
    const claims: Claims
    var overlays: seq<Overlay>
    var answered: set<nat>
    var focus: set<nat>
    var link: Option<nat>
    var unsent: seq<ClaimOp>
    var wires: map<nat, seq<ClaimOp>>
    var results: map<nat, seq<OverlayResult>>

    ghost function View(): HostState
      reads this, claims
    {
      HostState(generation, connected, model, binds, served, claims.View(), overlays, answered,
                focus, link, unsent, wires, results)
    }

    constructor ()
      ensures View() == START && fresh(claims)
    {
      generation, connected, model, binds, served := 1, false, NO_MODEL, map[], {};
      claims := new Claims();
      overlays, answered, focus, link, unsent, wires, results := [], {}, {}, None, [], map[], map[];
    }

    /** Sends in the order reconciled, or parks while no link is installed. */
    method SendOps(ops: seq<ClaimOp>)
      modifies this`wires, this`unsent
      ensures View() == Delivered(old(View()), ops)
    {
      if ops == [] {
        return;
      }
      match link {
        case Some(n) => wires := wires[n := Wire(wires, n) + ops];
        case None => unsent := unsent + ops;
      }
    }

    method ReconcileAndSend()
      modifies this`wires, this`unsent, claims
      ensures View() == ReconciledHost(old(View()))
    {
      var ops := claims.Reconcile(model, ServedTags(binds, served));
      SendOps(ops);
    }

    method Apply(r: Report) returns (changed: bool)
      modifies this`binds, this`served
      ensures View() == Reported(old(View()), r)
      ensures changed <==> binds != old(binds) || served != old(served)
    {
      match r {
        case Bind(p, t) =>
          changed := !(p in binds && binds[p] == t);
          binds := binds[p := t];
        case Unbind(p) =>
          changed := p in served || p in binds;
          binds, served := binds - {p}, served - {p};
        case Serve(ps) =>
          changed := ps != served;
          served := ps;
      }
    }

    method With(r: Report)
      modifies this, claims
      ensures View() == AfterReport(old(View()), r)
    {
      var changed := Apply(r);
      var held := claims.held;
      ReconcileAndSend();
      if changed || claims.held != held {
        generation := generation + 1;
      }
    }

    method AnswerOverlay(id: nat, choice: Option<string>, text: Option<string>)
      modifies this
      ensures View() == AfterAnswer(old(View()), OverlayResult(id, choice, text))
    {
      overlays := Without(overlays, id);
      answered := answered + {id};
      if link.Some? {
        results := results[link.value := GetOr(results, link.value, []) + [OverlayResult(id, choice, text)]];
      }
      generation := generation + 1;
    }

    method OnMessage(m: Msg)
      modifies this, claims
      ensures View() == AfterMsg(old(View()), m)
    {
      match m {
        case Error =>
          claims.Refuse();
          generation := generation + 1;
        case FocusSidebar(c) =>
          if c.Some? {
            OnFocus(c.value);
          }
        case ShowOverlay(id, client, spec) => OnOverlay(id, client, spec);
        case OverlayClosed(id) =>
          overlays := Without(overlays, id);
          generation := generation + 1;
        case Update(welcome, updated) => OnUpdate(welcome, updated);
      }
    }

    method OnFocus(a: nat)
      modifies this
      ensures View() == AfterMsg(old(View()), FocusSidebar(Some(a)))
    {
      var covered := claims.CoversAttachment(a);
      if covered {
        focus := focus + {a};
        generation := generation + 1;
      }
    }

    method OnOverlay(id: nat, client: nat, spec: string)
      modifies this
      ensures View() == AfterMsg(old(View()), ShowOverlay(id, client, spec))
    {
      if id in answered {
        return;
      }
      var covered := claims.CoversAttachment(client);
      if Shows(overlays, id) {
        overlays := Respecced(overlays, id, spec);
      } else if covered {
        overlays := overlays + [Overlay(id, client, spec)];
      }
      generation := generation + 1;
    }

    method OnUpdate(welcome: bool, updated: Model)
      modifies this, claims
      ensures View() == AfterMsg(old(View()), Update(welcome, updated))
    {
      model := updated;
      if welcome {
        BeginEpoch();
      }
      ReconcileAndSend();
      generation := generation + 1;
    }

    /** What belongs to one connection starts afresh. */
    method Reset()
      modifies this`overlays, this`answered, this`focus
      ensures View() == ResetConnection(old(View()))
    {
      overlays, answered, focus := [], {}, {};
    }

    method BeginEpoch()
      modifies this`overlays, this`answered, this`focus, this`connected, claims
      ensures View() == Welcomed(old(View()))
    {
      claims.Clear();
      Reset();
      connected := true;
    }

    method OnClosed()
      modifies this, claims
      ensures View() == AfterClosed(old(View()))
    {
      connected, model := false, NO_MODEL;
      claims.Clear();
      Reset();
      generation := generation + 1;
    }

    method Install(n: nat)
      modifies this
      ensures View() == AfterInstall(old(View()), n)
    {
      link := Some(n);
      wires := wires[n := Wire(wires, n) + unsent];
      unsent := [];
    }

    method Unlink()
      modifies this
      ensures View() == AfterUnlink(old(View()))
    {
      link := None;
    }

    method ClearUnsent()
      modifies this
      ensures View() == AfterClear(old(View()))
    {
      unsent := [];
    }

    method OpenFailed()
      modifies this
      ensures View() == AfterOpenFailed(old(View()))
    {
      connected := false;
      generation := generation + 1;
    }
  }
}
