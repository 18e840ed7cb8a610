/**
 Against a server that honours every claim and release, each within a bounded number of reconciles
 of being sent, the host ends up holding exactly what its windows show. In between the server's
 list may lag behind in any way the bound allows.
 */
module ClaimConvergence {
  import opened Prelude
  import opened ClaimProtocol
  import opened ClaimLedger
  import opened ClaimLiveness

  /** A message the server has not processed yet, and how many rounds it has waited. */
  datatype Posted = Posted(op: ClaimOp, age: nat)

  datatype World = World(book: Book, clients: seq<Client>, inbox: seq<Posted>)

  // ----- one round -----

  function Answer(c: Client, op: ClaimOp): Client {
    if op == Ready(c.id) then c.(claimed := FEATURES)
    else if op == Gone(c.id) then c.(claimed := {})
    else c
  }

  function AnswerAll(c: Client, posted: seq<Posted>): Client
    decreases |posted|
  {
    if posted == [] then c else AnswerAll(Answer(c, posted[0].op), posted[1..])
  }

  function Answers(cs: seq<Client>, posted: seq<Posted>): seq<Client> {
    seq(|cs|, i requires 0 <= i < |cs| => AnswerAll(cs[i], posted))
  }

  function Fresh(ops: seq<ClaimOp>): seq<Posted> {
    seq(|ops|, i requires 0 <= i < |ops| => Posted(ops[i], 0))
  }

  function Older(posted: seq<Posted>): seq<Posted> {
    seq(|posted|, i requires 0 <= i < |posted| => posted[i].(age := posted[i].age + 1))
  }

  /** The host reconciles on the list as the server shows it. */
  ghost function Sending(w: World, served: set<string>): World {
    var o := Reconciled(w.book, Model(Some(w.clients), true), served);
    World(o.book, w.clients, w.inbox + Fresh(o.ops))
  }

  /** The server processes the first `m` messages, or all there are, and shows the result. */
  function Serving(w: World, m: nat): World {
    var done := if m <= |w.inbox| then m else |w.inbox|;
    World(w.book, Answers(w.clients, w.inbox[..done]), Older(w.inbox[done..]))
  }

  ghost function Round(w: World, served: set<string>, m: nat): World {
    Serving(Sending(w, served), m)
  }

  ghost function Rounds(w: World, served: set<string>, ms: seq<nat>): World
    decreases |ms|
  {
    if ms == [] then w else Rounds(Round(w, served, ms[0]), served, ms[1..])
  }

  /** No message has waited for `lag` rounds. */
  ghost predicate Prompt(w: World, lag: nat) {
    forall p :: p in w.inbox ==> p.age < lag
  }

  /** In every round the server processes what has become due. */
  ghost predicate Honours(w: World, served: set<string>, ms: seq<nat>, lag: nat)
    decreases |ms|
  {
    ms == [] || (Prompt(Round(w, served, ms[0]), lag) && Honours(Round(w, served, ms[0]), served, ms[1..], lag))
  }

  // ----- a fair world -----

  function Wanted(cs: seq<Client>, served: set<string>): set<nat> {
    Desired(cs, true, served)
  }

  function About(a: nat): Posted -> bool {
    (p: Posted) => p.op.a == a
  }

  function Outstanding(inbox: seq<Posted>, a: nat): seq<Posted> {
    Filter(inbox, About(a))
  }

  /** Nothing but one claim of `a` is on its way. */
  predicate ClaimPosted(inbox: seq<Posted>, a: nat) {
    |Outstanding(inbox, a)| == 1 && Outstanding(inbox, a)[0].op == Ready(a)
  }

  /** One client as a fair world needs it: what we hold is shown as ours; the claim in flight is on
      its way or shown as honoured; what else is wanted is shown without an owner and is under
      budget. */
  ghost predicate FairClient(b: Book, wanted: set<nat>, inbox: seq<Posted>, c: Client) {
    if b.pending == Some(c.id) && ClaimPosted(inbox, c.id) then c.claimed == {}
    else if b.Covers(c.id) then c.claimed == FEATURES && Outstanding(inbox, c.id) == []
    else
      c.id in wanted ==>
        c.claimed == {} && Outstanding(inbox, c.id) == [] && GetOr(b.attempts, c.id, 0) < MAX_ATTEMPTS
  }

  ghost predicate Fair(w: World, served: set<string>) {
    var cs := w.clients;
    && DistinctIds(cs) && Disjoint(w.book)
    && (forall a: nat :: w.book.Covers(a) ==> Listed(cs, a))
    && (forall c :: c in cs ==> FairClient(w.book, Wanted(cs, served), w.inbox, c))
  }

  // ----- the server's half of a round -----

  lemma {:induction false} OnlyOwnMatter(c: Client, posted: seq<Posted>)
    ensures AnswerAll(c, posted) == AnswerAll(c, Outstanding(posted, c.id))
    decreases |posted|
  {
    if posted == [] {
    } else {
      FilterHead(posted, About(c.id));
      OnlyOwnMatter(Answer(c, posted[0].op), posted[1..]);
      if posted[0].op.a == c.id {
        var rest := Outstanding(posted[1..], c.id);
        assert ([posted[0]] + rest)[1..] == rest;
      }
    }
  }

  lemma OlderCons(p: Posted, rest: seq<Posted>)
    ensures Older([p] + rest) == [p.(age := p.age + 1)] + Older(rest)
  {
  }

  lemma {:induction false} OlderOutstanding(posted: seq<Posted>, a: nat)
    ensures Outstanding(Older(posted), a) == Older(Outstanding(posted, a))
  {
    if posted == [] {
    } else {
      var p, rest := posted[0], posted[1..];
      assert posted == [p] + rest;
      OlderOutstanding(rest, a);
      OlderCons(p, rest);
      FilterCons(p, rest, About(a));
      FilterCons(p.(age := p.age + 1), Older(rest), About(a));
      OlderCons(p, Outstanding(rest, a));
    }
  }

  /** What is on its way about `a` is either processed now or waits on. */
  lemma OutstandingSplits(inbox: seq<Posted>, done: nat, a: nat)
    requires done <= |inbox|
    ensures Outstanding(inbox, a) == Outstanding(inbox[..done], a) + Outstanding(inbox[done..], a)
  {
    FilterConcat(inbox[..done], inbox[done..], About(a));
    assert inbox[..done] + inbox[done..] == inbox;
  }

  lemma ServedClient(b: Book, wanted: set<nat>, inbox: seq<Posted>, done: nat, c: Client)
    requires done <= |inbox| && FairClient(b, wanted, inbox, c)
    ensures FairClient(b, wanted, Older(inbox[done..]), AnswerAll(c, inbox[..done]))
    ensures AnswerAll(c, inbox[..done]).id == c.id && AnswerAll(c, inbox[..done]).tag == c.tag
  {
    OutstandingSplits(inbox, done, c.id);
    OnlyOwnMatter(c, inbox[..done]);
    OlderOutstanding(inbox[done..], c.id);
    var now, later := Outstanding(inbox[..done], c.id), Outstanding(inbox[done..], c.id);
    SameIdentity(c, inbox[..done]);
    if ClaimPosted(inbox, c.id) {
      if now == [] {
        assert later == Outstanding(inbox, c.id);
      } else {
        assert now == Outstanding(inbox, c.id) && later == [] && now[1..] == [];
      }
    }
  }

  lemma {:induction false} SameIdentity(c: Client, posted: seq<Posted>)
    ensures AnswerAll(c, posted).id == c.id && AnswerAll(c, posted).tag == c.tag
    decreases |posted|
  {
    if posted == [] {
    } else {
      SameIdentity(Answer(c, posted[0].op), posted[1..]);
    }
  }

  lemma WantedKept(cs: seq<Client>, posted: seq<Posted>, served: set<string>)
    ensures Wanted(Answers(cs, posted), served) == Wanted(cs, served)
  {
    var after := Answers(cs, posted);
    forall i | 0 <= i < |cs|
      ensures after[i].id == cs[i].id && after[i].tag == cs[i].tag
    {
      SameIdentity(cs[i], posted);
    }
    forall a | a in Wanted(cs, served)
      ensures a in Wanted(after, served)
    {
      var i :| 0 <= i < |cs| && cs[i].id == a && cs[i].tag != "" && cs[i].tag in served;
      assert after[i] in after;
    }
    forall a | a in Wanted(after, served)
      ensures a in Wanted(cs, served)
    {
      var i :| 0 <= i < |after| && after[i].id == a && after[i].tag != "" && after[i].tag in served;
      assert cs[i] in cs;
    }
  }

  lemma ListedKept(cs: seq<Client>, posted: seq<Posted>, a: nat)
    requires Listed(cs, a)
    ensures Listed(Answers(cs, posted), a)
  {
    var i :| 0 <= i < |cs| && cs[i].id == a;
    SameIdentity(cs[i], posted);
    assert Answers(cs, posted)[i] in Answers(cs, posted);
  }

  lemma DistinctKept(cs: seq<Client>, posted: seq<Posted>)
    requires DistinctIds(cs)
    ensures DistinctIds(Answers(cs, posted))
  {
    forall i | 0 <= i < |cs|
      ensures Answers(cs, posted)[i].id == cs[i].id
    {
      SameIdentity(cs[i], posted);
    }
  }

  lemma ServingFair(w: World, served: set<string>, m: nat)
    requires Fair(w, served)
    ensures Fair(Serving(w, m), served)
    ensures Wanted(Serving(w, m).clients, served) == Wanted(w.clients, served)
  {
    var done := if m <= |w.inbox| then m else |w.inbox|;
    var posted, after := w.inbox[..done], Serving(w, m);
    WantedKept(w.clients, posted, served);
    DistinctKept(w.clients, posted);
    forall a: nat | w.book.Covers(a)
      ensures Listed(after.clients, a)
    {
      ListedKept(w.clients, posted, a);
    }
    forall c | c in after.clients
      ensures FairClient(w.book, Wanted(after.clients, served), after.inbox, c)
    {
      var i :| 0 <= i < |after.clients| && after.clients[i] == c;
      assert w.clients[i] in w.clients;
      ServedClient(w.book, Wanted(w.clients, served), w.inbox, done, w.clients[i]);
    }
  }

  // ----- the host's half of a round -----

  /** The claim in flight is shown as honoured. */
  ghost predicate Confirmed(w: World) {
    w.book.pending.Some? && Confirms(w.clients, w.book.pending.value)
  }

  ghost function Holding(w: World, served: set<string>): set<nat> {
    (w.book.held + (if Confirmed(w) then {w.book.pending.value} else {})) * Wanted(w.clients, served)
  }

  lemma ConfirmedExactly(w: World, served: set<string>, c: Client)
    requires Fair(w, served) && c in w.clients
    ensures Confirms(w.clients, c.id) <==> FEATURES <= c.claimed
    ensures Unclaimed(w.clients, c.id) <==> c.claimed == {}
    ensures ClaimedBySome(w.clients, c.id) <==> c.claimed != {}
  {
    forall d | d in w.clients && d.id == c.id
      ensures d == c
    {
      var i :| 0 <= i < |w.clients| && w.clients[i] == c;
      var j :| 0 <= j < |w.clients| && w.clients[j] == d;
    }
  }

  /** A claim still on its way is not confirmed, one that is not is. */
  lemma ConfirmedWhenHonoured(w: World, served: set<string>)
    requires Fair(w, served) && w.book.pending.Some?
    ensures Confirmed(w) <==> !ClaimPosted(w.inbox, w.book.pending.value)
  {
    var a := w.book.pending.value;
    assert w.book.Covers(a);
    var c :| c in w.clients && c.id == a;
    ConfirmedExactly(w, served, c);
    assert Sidebar in FEATURES;
  }

  /** What one reconcile makes of the book. */
  lemma SendingBook(w: World, served: set<string>)
    requires Fair(w, served)
    ensures var next, wanted := Sending(w, served).book, Wanted(w.clients, served);
            && next.held == Holding(w, served)
            && (if w.book.pending.Some? && !Confirmed(w) then next.pending == w.book.pending
                else if wanted == Holding(w, served) then next.pending.None?
                else next.pending.Some? && next.pending.value in wanted - Holding(w, served)
                     && Unclaimed(w.clients, next.pending.value))
  {
    var cs, wanted := w.clients, Wanted(w.clients, served);
    var s := Settled(w.book, cs);
    assert s.held * wanted == Holding(w, served) by {
      forall a | a in Holding(w, served)
        ensures Listed(cs, a)
      {
        assert w.book.Covers(a);
      }
    }
    if !(w.book.pending.Some? && !Confirmed(w)) {
      assert s.pending.None?;
      EligibleIsMissing(w, served);
    } else {
      assert w.book.Covers(w.book.pending.value);
    }
  }

  /** Everything wanted and not held may be claimed. */
  lemma EligibleIsMissing(w: World, served: set<string>)
    requires Fair(w, served) && (w.book.pending.Some? ==> Confirmed(w))
    ensures var s := Settled(w.book, w.clients);
            var wanted := Wanted(w.clients, served);
            Eligible(s.(held := s.held * wanted), w.clients, wanted) == wanted - Holding(w, served)
  {
    var s, wanted := Settled(w.book, w.clients), Wanted(w.clients, served);
    var kept := s.(held := s.held * wanted);
    forall a: nat
      ensures a in Eligible(kept, w.clients, wanted) <==> a in wanted - Holding(w, served)
    {
      if a in wanted {
        var c :| c in w.clients && c.id == a;
        ConfirmedExactly(w, served, c);
        assert FairClient(w.book, wanted, w.inbox, c);
        if w.book.pending == Some(a) {
          ConfirmedWhenHonoured(w, served);
        }
      }
    }
  }

  /** What one reconcile sends. */
  ghost function Sent(w: World, served: set<string>): seq<ClaimOp> {
    Reconciled(w.book, Model(Some(w.clients), true), served).ops
  }

  lemma {:induction false} FreshNone(ops: seq<ClaimOp>, a: nat)
    requires forall op :: op in ops ==> op.a != a
    ensures Outstanding(Fresh(ops), a) == []
  {
    forall p | p in Fresh(ops)
      ensures !About(a)(p)
    {
      var i :| 0 <= i < |ops| && Fresh(ops)[i] == p;
      assert ops[i] in ops;
    }
    FilterNone(Fresh(ops), About(a));
  }

  /** About a wanted attachment a reconcile sends one claim, if it is the one picked, and nothing
      otherwise. */
  lemma SentAbout(w: World, served: set<string>, a: nat)
    requires Fair(w, served) && a in Wanted(w.clients, served)
    ensures var picked := Sending(w, served).book.pending == Some(a) && w.book.pending != Some(a);
            Outstanding(Fresh(Sent(w, served)), a) == if picked then [Posted(Ready(a), 0)] else []
  {
    var cs, wanted := w.clients, Wanted(w.clients, served);
    var s := Settled(w.book, cs);
    var gones := Gones(Ascending(s.held - wanted));
    var pick := Pick(s.(held := s.held * wanted), cs, wanted);
    var ops := Sent(w, served);
    assert ops == gones + Readies(pick);
    assert Fresh(ops) == Fresh(gones) + Fresh(Readies(pick));
    FilterConcat(Fresh(gones), Fresh(Readies(pick)), About(a));
    forall op | op in gones
      ensures op.a != a
    {
      var i :| 0 <= i < |gones| && gones[i] == op;
      assert Ascending(s.held - wanted)[i] in Ascending(s.held - wanted);
    }
    FreshNone(gones, a);
    PickIsNew(w, served);
    if pick == Some(a) {
      assert Fresh(Readies(pick)) == [Posted(Ready(a), 0)];
      FilterHead([Posted(Ready(a), 0)], About(a));
    } else {
      FreshNone(Readies(pick), a);
    }
  }

  /** The claim newly in flight is the one picked. */
  lemma PickIsNew(w: World, served: set<string>)
    requires Fair(w, served)
    ensures var wanted, s := Wanted(w.clients, served), Settled(w.book, w.clients);
            var pick := Pick(s.(held := s.held * wanted), w.clients, wanted);
            && Sending(w, served).book.pending == (if pick.Some? then pick else s.pending)
            && (pick.Some? ==> w.book.pending != pick)
            && (pick.None? && s.pending.Some? ==> s.pending == w.book.pending)
  {
    SendingBook(w, served);
    if w.book.pending.Some? && Confirmed(w) {
      EligibleIsMissing(w, served);
    }
  }

  /** About an unwanted claim that stays in flight nothing is sent. */
  lemma SentAboutPending(w: World, served: set<string>, a: nat)
    requires Fair(w, served) && a !in Wanted(w.clients, served)
    ensures Sending(w, served).book.Covers(a) ==>
              w.book.pending == Some(a) && !Confirmed(w) && Outstanding(Fresh(Sent(w, served)), a) == []
  {
    SendingBook(w, served);
    if Sending(w, served).book.Covers(a) {
      var s := Settled(w.book, w.clients);
      var gones := Gones(Ascending(s.held - Wanted(w.clients, served)));
      assert Sent(w, served) == gones + [];
      forall op | op in gones
        ensures op.a != a
      {
        var i :| 0 <= i < |gones| && gones[i] == op;
        assert Ascending(s.held - Wanted(w.clients, served))[i] in Ascending(s.held - Wanted(w.clients, served));
      }
      FreshNone(Sent(w, served), a);
    }
  }

  lemma SentAboutKept(w: World, served: set<string>, a: nat)
    requires Fair(w, served) && w.book.pending == Some(a) && !Confirmed(w)
    ensures Outstanding(Sending(w, served).inbox, a) == Outstanding(w.inbox, a)
  {
    SendingBook(w, served);
    if a in Wanted(w.clients, served) {
      SentAbout(w, served, a);
    } else {
      SentAboutPending(w, served, a);
    }
    FilterConcat(w.inbox, Fresh(Sent(w, served)), About(a));
    AppendNothing(Outstanding(w.inbox, a));
  }

  lemma SentAboutNone(w: World, served: set<string>, a: nat)
    requires Fair(w, served) && a in Wanted(w.clients, served)
    requires w.book.pending == Some(a) || Sending(w, served).book.pending != Some(a)
    ensures Outstanding(Sending(w, served).inbox, a) == Outstanding(w.inbox, a)
  {
    SentAbout(w, served, a);
    FilterConcat(w.inbox, Fresh(Sent(w, served)), About(a));
    AppendNothing(Outstanding(w.inbox, a));
  }

  /** A wanted attachment that is ours stays so. */
  lemma SentHeld(w: World, served: set<string>, c: Client)
    requires Fair(w, served) && c in w.clients && c.id in Holding(w, served)
    ensures FairClient(Sending(w, served).book, Wanted(w.clients, served), Sending(w, served).inbox, c)
  {
    assert FairClient(w.book, Wanted(w.clients, served), w.inbox, c);
    SendingBook(w, served);
    if w.book.pending.Some? {
      ConfirmedWhenHonoured(w, served);
    }
    assert Sending(w, served).book.pending != Some(c.id) by {
      HeldIsNotPending(w, served, c.id);
    }
    SentAboutNone(w, served, c.id);
  }

  lemma HeldIsNotPending(w: World, served: set<string>, a: nat)
    requires Fair(w, served) && a in Holding(w, served)
    ensures Sending(w, served).book.pending != Some(a)
  {
    SendingBook(w, served);
  }

  lemma PickedWasFree(w: World, served: set<string>, c: Client)
    requires Fair(w, served) && c in w.clients
    requires Sending(w, served).book.pending == Some(c.id) && w.book.pending != Some(c.id)
    ensures c.id in Wanted(w.clients, served) && c.claimed == {} && Outstanding(w.inbox, c.id) == []
  {
    assert FairClient(w.book, Wanted(w.clients, served), w.inbox, c);
    SendingBook(w, served);
  }

  lemma SentPicked(w: World, served: set<string>, c: Client)
    requires Fair(w, served) && c in w.clients
    requires Sending(w, served).book.pending == Some(c.id) && w.book.pending != Some(c.id)
    ensures FairClient(Sending(w, served).book, Wanted(w.clients, served), Sending(w, served).inbox, c)
  {
    PickedWasFree(w, served, c);
    SentAbout(w, served, c.id);
    OutstandingJoins(w.inbox, Fresh(Sent(w, served)), c.id);
    assert Outstanding(Sending(w, served).inbox, c.id) == [Posted(Ready(c.id), 0)];
  }

  lemma OutstandingJoins(inbox: seq<Posted>, more: seq<Posted>, a: nat)
    requires Outstanding(inbox, a) == []
    ensures Outstanding(inbox + more, a) == Outstanding(more, a)
  {
    FilterConcat(inbox, more, About(a));
    assert [] + Outstanding(more, a) == Outstanding(more, a);
  }

  /** A claim of a wanted attachment that stays in flight. */
  lemma SentInFlight(w: World, served: set<string>, c: Client)
    requires Fair(w, served) && c in w.clients && w.book.pending == Some(c.id) && !Confirmed(w)
    ensures FairClient(Sending(w, served).book, Wanted(w.clients, served), Sending(w, served).inbox, c)
  {
    assert FairClient(w.book, Wanted(w.clients, served), w.inbox, c);
    SendingBook(w, served);
    ConfirmedWhenHonoured(w, served);
    SentAboutKept(w, served, c.id);
  }

  /** A wanted attachment that is neither ours nor claimed now. */
  lemma SentLeft(w: World, served: set<string>, c: Client)
    requires Fair(w, served) && c in w.clients && c.id in Wanted(w.clients, served) - Holding(w, served)
    requires w.book.pending != Some(c.id) && Sending(w, served).book.pending != Some(c.id)
    ensures FairClient(Sending(w, served).book, Wanted(w.clients, served), Sending(w, served).inbox, c)
  {
    assert FairClient(w.book, Wanted(w.clients, served), w.inbox, c);
    SendingBook(w, served);
    SentAboutNone(w, served, c.id);
    assert GetOr(Sending(w, served).book.attempts, c.id, 0) == GetOr(w.book.attempts, c.id, 0) by {
      AttemptsKept(w, served, c.id);
    }
  }

  lemma AttemptsKept(w: World, served: set<string>, a: nat)
    requires Listed(w.clients, a) && w.book.pending != Some(a) && Sending(w, served).book.pending != Some(a)
    ensures GetOr(Sending(w, served).book.attempts, a, 0) == GetOr(w.book.attempts, a, 0)
  {
  }

  lemma SentUnwanted(w: World, served: set<string>, c: Client)
    requires Fair(w, served) && c in w.clients && c.id !in Wanted(w.clients, served)
    ensures FairClient(Sending(w, served).book, Wanted(w.clients, served), Sending(w, served).inbox, c)
  {
    SentAboutPending(w, served, c.id);
    if Sending(w, served).book.Covers(c.id) {
      SentInFlight(w, served, c);
    }
  }

  lemma SentClient(w: World, served: set<string>, c: Client)
    requires Fair(w, served) && c in w.clients
    ensures FairClient(Sending(w, served).book, Wanted(w.clients, served), Sending(w, served).inbox, c)
  {
    if c.id !in Wanted(w.clients, served) {
      SentUnwanted(w, served, c);
    } else if w.book.pending == Some(c.id) && !Confirmed(w) {
      SentInFlight(w, served, c);
    } else if c.id in Holding(w, served) {
      SentHeld(w, served, c);
    } else if Sending(w, served).book.pending == Some(c.id) {
      SentPicked(w, served, c);
    } else {
      SentLeft(w, served, c);
    }
  }

  lemma SendingFair(w: World, served: set<string>)
    requires Fair(w, served)
    ensures Fair(Sending(w, served), served)
  {
    var next := Sending(w, served);
    SendingBook(w, served);
    SendingDisjoint(w, served);
    forall a: nat | next.book.Covers(a)
      ensures Listed(next.clients, a)
    {
      if a !in Wanted(w.clients, served) {
        assert w.book.Covers(a);
      }
    }
    forall c | c in next.clients
      ensures FairClient(next.book, Wanted(next.clients, served), next.inbox, c)
    {
      SentClient(w, served, c);
    }
  }

  lemma SendingDisjoint(w: World, served: set<string>)
    requires Fair(w, served)
    ensures Disjoint(Sending(w, served).book)
  {
    SendingBook(w, served);
  }

  // ----- how long it takes -----

  /** What the windows show but the host does not cover yet. */
  function Missing(w: World, served: set<string>): set<nat> {
    set a | a in Wanted(w.clients, served) && !w.book.Covers(a)
  }

  /** How many rounds the claim in flight may still wait. */
  function Wait(w: World, lag: nat): nat {
    if w.book.pending.Some? && ClaimPosted(w.inbox, w.book.pending.value)
       && Outstanding(w.inbox, w.book.pending.value)[0].age < lag
    then lag - Outstanding(w.inbox, w.book.pending.value)[0].age
    else 0
  }

  function Distance(w: World, served: set<string>, lag: nat): nat {
    lag * |Missing(w, served)| + Wait(w, lag)
  }

  /** A claim on its way comes a round closer. */
  lemma WaitShrinks(w: World, served: set<string>, m: nat, lag: nat)
    requires Fair(w, served) && Prompt(w, lag) && w.book.pending.Some? && !Confirmed(w)
    ensures var next := Round(w, served, m);
            Missing(next, served) == Missing(w, served) && Wait(next, lag) < Wait(w, lag)
  {
    var a, sent := w.book.pending.value, Sending(w, served);
    SendingBook(w, served);
    ConfirmedWhenHonoured(w, served);
    SentAboutKept(w, served, a);
    var done := if m <= |sent.inbox| then m else |sent.inbox|;
    WantedKept(w.clients, sent.inbox[..done], served);
    OutstandingSplits(sent.inbox, done, a);
    OlderOutstanding(sent.inbox[done..], a);
    FilterMembers(w.inbox, About(a));
    assert Outstanding(w.inbox, a)[0] in Outstanding(w.inbox, a);
    MissingKept(w, served, m);
  }

  lemma MissingKept(w: World, served: set<string>, m: nat)
    requires Fair(w, served) && w.book.pending.Some? && !Confirmed(w)
    ensures Missing(Round(w, served, m), served) == Missing(w, served)
  {
    SendingBook(w, served);
    MissingAfter(w, served, m);
  }

  /** A round leaves the uncovered attachments as the host's half of it does. */
  lemma MissingAfter(w: World, served: set<string>, m: nat)
    requires Fair(w, served)
    ensures var next := Round(w, served, m);
            && next.book == Sending(w, served).book
            && Wanted(next.clients, served) == Wanted(w.clients, served)
  {
    SendingFair(w, served);
    ServingFair(Sending(w, served), served, m);
  }

  lemma MissingIsNotHeld(w: World, served: set<string>)
    requires Fair(w, served) && (w.book.pending.Some? ==> Confirmed(w))
    ensures Missing(w, served) == Wanted(w.clients, served) - Holding(w, served)
  {
  }

  /** Without a claim on its way, one more attachment is claimed, or all is done. */
  lemma MissingShrinks(w: World, served: set<string>, m: nat)
    requires Fair(w, served) && (w.book.pending.Some? ==> Confirmed(w))
    ensures var next := Round(w, served, m);
            var before, after := Missing(w, served), Missing(next, served);
            if before == {} then after == {} && next.book.held == Wanted(w.clients, served) && next.book.pending == None
            else |after| < |before|
  {
    var next, wanted := Round(w, served, m), Wanted(w.clients, served);
    SendingBook(w, served);
    MissingAfter(w, served, m);
    MissingIsNotHeld(w, served);
    if Missing(w, served) == {} {
      assert wanted == Holding(w, served);
    } else {
      var picked := next.book.pending.value;
      assert picked in Missing(w, served);
      assert Missing(next, served) <= Missing(w, served) - {picked};
      SubsetSize(Missing(next, served), Missing(w, served) - {picked});
    }
  }

  lemma FewerTimes(lag: nat, fewer: nat, more: nat)
    requires fewer < more
    ensures lag * fewer + lag <= lag * more
  {
    assert lag * more == lag * fewer + lag * (more - fewer);
    assert lag * (more - fewer) == lag + lag * (more - fewer - 1);
  }

  /** A claim that has just been through a round has waited at least one. */
  lemma WaitBelowLag(w: World, served: set<string>, m: nat, lag: nat)
    requires lag >= 1
    ensures Wait(Round(w, served, m), lag) < lag
  {
    var next := Round(w, served, m);
    forall p | p in next.inbox
      ensures p.age >= 1
    {
    }
    if Wait(next, lag) > 0 {
      var a := next.book.pending.value;
      FilterMembers(next.inbox, About(a));
      assert Outstanding(next.inbox, a)[0] in Outstanding(next.inbox, a);
    }
  }

  lemma DistanceShrinks(w: World, served: set<string>, m: nat, lag: nat)
    requires Fair(w, served) && Prompt(w, lag) && lag >= 1
    ensures var next := Round(w, served, m);
            if Distance(w, served, lag) == 0
            then Distance(next, served, lag) == 0
                 && next.book.held == Wanted(w.clients, served) && next.book.pending == None
            else Distance(next, served, lag) < Distance(w, served, lag)
  {
    var next := Round(w, served, m);
    if w.book.pending.Some? && !Confirmed(w) {
      WaitShrinks(w, served, m, lag);
    } else {
      MissingShrinks(w, served, m);
      WaitBelowLag(w, served, m, lag);
      if Missing(w, served) != {} {
        FewerTimes(lag, |Missing(next, served)|, |Missing(w, served)|);
      } else if w.book.pending.Some? {
        ConfirmedWhenHonoured(w, served);
      }
    }
  }

  /** Main result. The server honours each message within `lag` rounds of being sent. From any fair
      world, after `lag` rounds for every uncovered attachment, the rounds the claim in flight may
      still wait, and one more, the held set is exactly the wanted one with nothing in flight; and
      later rounds keep it so. */
  lemma {:induction false} Converges(w: World, served: set<string>, ms: seq<nat>, lag: nat)
    requires Fair(w, served) && Prompt(w, lag) && lag >= 1 && Honours(w, served, ms, lag)
    requires |ms| >= lag * |Missing(w, served)| + Wait(w, lag) + 1
    ensures Rounds(w, served, ms).book.held == Wanted(w.clients, served)
    ensures Rounds(w, served, ms).book.pending == None
    decreases |ms|
  {
    var next := Round(w, served, ms[0]);
    DistanceShrinks(w, served, ms[0], lag);
    SendingFair(w, served);
    ServingFair(Sending(w, served), served, ms[0]);
    if |ms| == 1 {
      assert Rounds(next, served, ms[1..]) == next;
    } else {
      Converges(next, served, ms[1..], lag);
    }
  }

  /** From the default state, `lag` rounds for every wanted attachment and one more are enough. */
  lemma ConvergesFromStart(cs: seq<Client>, served: set<string>, ms: seq<nat>, lag: nat)
    requires DistinctIds(cs) && lag >= 1
    requires forall c :: c in cs && c.id in Wanted(cs, served) ==> c.claimed == {}
    requires Honours(World(EMPTY_BOOK, cs, []), served, ms, lag)
    requires |ms| >= lag * |Wanted(cs, served)| + 1
    ensures Rounds(World(EMPTY_BOOK, cs, []), served, ms).book.held == Wanted(cs, served)
    ensures Rounds(World(EMPTY_BOOK, cs, []), served, ms).book.pending == None
  {
    var w := World(EMPTY_BOOK, cs, []);
    assert Missing(w, served) == Wanted(cs, served);
    Converges(w, served, ms, lag);
  }
}
