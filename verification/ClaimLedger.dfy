/**
 What a run of the claim protocol looks like from outside: the log of lists seen, claim messages
 sent and refusals received, judged attachment by attachment by an automaton that knows nothing of
 the bookkeeping. The bookkeeping is proved to agree with that automaton after every run.
 */
module ClaimLedger {
  import opened Prelude
  import opened ClaimProtocol

  datatype Entry = Seen(clients: Option<seq<Client>>) | Sent(op: ClaimOp) | Refusal

  /** Idle: no claim stands. Asked: a Ready is unanswered. Owned: the server showed it as ours. */
  datatype Phase = Idle | Asked | Owned

  /** `tries` counts the Readies since the attachment was last confirmed or detached. */
  datatype Standing = Standing(phase: Phase, tries: nat)

  function After(s: Standing, e: Entry, a: nat): Standing {
    match e
    case Seen(None) => s
    case Seen(Some(cs)) =>
      if !Listed(cs, a) then Standing(Idle, 0)
      else if s.phase.Asked? && Confirms(cs, a) then Standing(Owned, 0)
      else s
    case Sent(Ready(b)) => if a == b then Standing(Asked, s.tries + 1) else s
    case Sent(Gone(b)) => if a == b then s.(phase := Idle) else s
    case Refusal => if s.phase.Asked? then s.(phase := Idle) else s
  }

  function Judged(log: seq<Entry>, a: nat): Standing {
    if log == [] then Standing(Idle, 0)
    else After(Judged(log[..|log| - 1], a), log[|log| - 1], a)
  }

  function Sents(ops: seq<ClaimOp>): seq<Entry> {
    seq(|ops|, i requires 0 <= i < |ops| => Sent(ops[i]))
  }

  /** A claim is only sent while none is unanswered, for an idle attachment under budget; a
      release only for an attachment that is claimed. */
  ghost predicate MayLog(log: seq<Entry>, e: Entry) {
    match e
    case Sent(Ready(a)) =>
      Judged(log, a).phase.Idle? && Judged(log, a).tries < MAX_ATTEMPTS
      && forall b: nat :: !Judged(log, b).phase.Asked?
    case Sent(Gone(a)) => !Judged(log, a).phase.Idle?
    case _ => true
  }

  ghost predicate Legal(log: seq<Entry>) {
    log == [] || (Legal(log[..|log| - 1]) && MayLog(log[..|log| - 1], log[|log| - 1]))
  }

  // ----- the bookkeeping as a reading of the log -----

  function Reading(b: Book, a: nat): Standing {
    Standing(if a in b.held then Owned else if b.pending == Some(a) then Asked else Idle,
             GetOr(b.attempts, a, 0))
  }

  ghost predicate Disjoint(b: Book) {
    b.held !! b.refused
    && (b.pending.Some? ==> b.pending.value !in b.held && b.pending.value !in b.refused)
  }

  ghost predicate Agrees(b: Book, log: seq<Entry>) {
    Disjoint(b) && Legal(log)
    && forall a: nat :: Judged(log, a) == Reading(b, a) && Judged(log, a).tries <= MAX_ATTEMPTS
  }

  lemma GonesHeadFirst(held: set<nat>, log: seq<Entry>, q: seq<nat>)
    requires q != []
    ensures held - {q[0]} - (set a | a in q[1..]) == held - (set a | a in q)
    ensures log + Sents(Gones(q)) == log + [Sent(Gone(q[0]))] + Sents(Gones(q[1..]))
  {
  }

  lemma {:induction false} AgreesGones(b: Book, log: seq<Entry>, q: seq<nat>)
    requires Agrees(b, log)
    requires forall a :: a in q ==> a in b.held
    requires forall i, j :: 0 <= i < j < |q| ==> q[i] != q[j]
    ensures Agrees(b.(held := b.held - (set a | a in q)), log + Sents(Gones(q)))
    decreases |q|
  {
    if q == [] {
      assert b.held - (set a | a in q) == b.held;
      assert log + Sents(Gones(q)) == log;
    } else {
      AgreesGones(b.(held := b.held - {q[0]}), log + [Sent(Gone(q[0]))], q[1..]);
      GonesHeadFirst(b.held, log, q);
    }
  }

  lemma {:induction false} AscendingDistinct(s: set<nat>)
    ensures forall a :: a in Ascending(s) <==> a in s
    ensures forall i, j :: 0 <= i < j < |Ascending(s)| ==> Ascending(s)[i] < Ascending(s)[j]
    decreases |s|
  {
    if s == {} {
    } else {
      var m := Min(s);
      AscendingDistinct(s - {m});
      var rest := Ascending(s - {m});
      forall j | 0 <= j < |rest|
        ensures m < rest[j]
      {
        assert rest[j] in rest;
      }
    }
  }

  lemma AgreesReleased(b: Book, log: seq<Entry>, release: set<nat>)
    requires Agrees(b, log) && release <= b.held
    ensures Agrees(b.(held := b.held - release), log + Sents(Gones(Ascending(release))))
  {
    AscendingDistinct(release);
    AgreesGones(b, log, Ascending(release));
    assert (set a | a in Ascending(release)) == release;
  }

  lemma JudgedSnoc(log: seq<Entry>, e: Entry, a: nat)
    ensures Judged(log + [e], a) == After(Judged(log, a), e, a)
  {
    assert (log + [e])[..|log|] == log;
  }

  lemma LegalSnoc(log: seq<Entry>, e: Entry)
    requires Legal(log) && MayLog(log, e)
    ensures Legal(log + [e])
  {
    assert (log + [e])[..|log|] == log;
  }

  /** A claim the bookkeeping is free to make. */
  predicate Claimable(b: Book, a: nat) {
    b.pending.None? && a !in b.held && a !in b.refused && GetOr(b.attempts, a, 0) < MAX_ATTEMPTS
  }

  lemma ReadyJudged(b: Book, log: seq<Entry>, a: nat, x: nat)
    requires Agrees(b, log) && Claimable(b, a)
    ensures var s := Judged(log + [Sent(Ready(a))], x);
            s == Reading(Claiming(b, Some(a)), x) && s.tries <= MAX_ATTEMPTS
  {
    JudgedSnoc(log, Sent(Ready(a)), x);
    assert Judged(log, x) == Reading(b, x);
  }

  lemma ReadyLegal(b: Book, log: seq<Entry>, a: nat)
    requires Agrees(b, log) && Claimable(b, a)
    ensures Legal(log + [Sent(Ready(a))])
  {
    forall x: nat
      ensures !Judged(log, x).phase.Asked?
    {
      assert Judged(log, x) == Reading(b, x);
    }
    assert Judged(log, a) == Reading(b, a);
    LegalSnoc(log, Sent(Ready(a)));
  }

  lemma AgreesReady(b: Book, log: seq<Entry>, a: nat)
    requires Agrees(b, log) && Claimable(b, a)
    ensures Agrees(Claiming(b, Some(a)), log + [Sent(Ready(a))])
  {
    ReadyLegal(b, log, a);
    forall x: nat
      ensures Judged(log + [Sent(Ready(a))], x) == Reading(Claiming(b, Some(a)), x)
              && Judged(log + [Sent(Ready(a))], x).tries <= MAX_ATTEMPTS
    {
      ReadyJudged(b, log, a, x);
    }
  }

  lemma AgreesPick(b: Book, log: seq<Entry>, cs: seq<Client>, desired: set<nat>)
    requires Agrees(b, log)
    ensures var pick := Pick(b, cs, desired);
            Agrees(Claiming(b, pick), log + Sents(Readies(pick)))
  {
    var pick := Pick(b, cs, desired);
    if pick.None? {
      assert log + Sents(Readies(pick)) == log;
    } else {
      assert pick.value in Eligible(b, cs, desired);
      AgreesReady(b, log, pick.value);
      assert Sents(Readies(pick)) == [Sent(Ready(pick.value))];
    }
  }

  // ----- whole runs -----

  datatype Input = Reconcile(model: Model, served: set<string>) | Refuse

  datatype Run = Run(book: Book, log: seq<Entry>)

  ghost function StepRun(r: Run, i: Input): Run {
    match i
    case Refuse => Run(RefusedBook(r.book), r.log + [Refusal])
    case Reconcile(m, served) =>
      var o := Reconciled(r.book, m, served);
      Run(o.book, r.log + [Seen(m.clients)] + Sents(o.ops))
  }

  ghost function RunOf(inputs: seq<Input>): Run {
    if inputs == [] then Run(EMPTY_BOOK, [])
    else StepRun(RunOf(inputs[..|inputs| - 1]), inputs[|inputs| - 1])
  }

  lemma AgreesListing(b: Book, log: seq<Entry>, cs: seq<Client>, desired: set<nat>)
    requires Agrees(b, log)
    ensures var o := Listing(b, cs, desired);
            Agrees(o.book, log + [Seen(Some(cs))] + Sents(o.ops))
  {
    var s := Settled(b, cs);
    var log1 := log + [Seen(Some(cs))];
    AgreesReleased(s, log1, s.held - desired);
    var kept := s.(held := s.held * desired);
    assert s.held - (s.held - desired) == s.held * desired;
    var gones := Gones(Ascending(s.held - desired));
    AgreesPick(kept, log1 + Sents(gones), cs, desired);
    var readies := Readies(Pick(kept, cs, desired));
    assert log1 + Sents(gones) + Sents(readies) == log1 + Sents(gones + readies);
  }

  lemma AgreesBlind(b: Book, log: seq<Entry>)
    requires Agrees(b, log)
    ensures Agrees(Blind(b).book, log + [Seen(None)] + Sents(Blind(b).ops))
  {
    var log1 := log + [Seen(None)];
    assert Agrees(b, log1);
    AgreesReleased(b, log1, b.held);
    var gones := Gones(Ascending(b.held));
    var log2 := log1 + Sents(gones);
    var b2 := b.(held := {});
    assert b.held - b.held == {};
    assert Agrees(b2, log2);
    if b.pending.Some? {
      var e := Sent(Gone(b.pending.value));
      assert Judged(log2, b.pending.value) == Reading(b2, b.pending.value);
      assert Agrees(b2.(pending := None), log2 + [e]);
      assert log2 + [e] == log1 + Sents(gones + [Gone(b.pending.value)]);
    } else {
      assert gones + [] == gones;
    }
  }

  lemma AgreesRefused(b: Book, log: seq<Entry>)
    requires Agrees(b, log)
    ensures Agrees(RefusedBook(b), log + [Refusal])
  {
  }

  /** Main result. After every run the attachments with a standing claim in the log are exactly
      those the host covers, every message sent was legal when sent (so at most one claim is ever
      unanswered and no attachment is asked for more than three times between confirmations or
      detachments), the stored budget is the log's count, and the three sets stay disjoint. */
  lemma {:induction false} LedgerAgrees(inputs: seq<Input>)
    ensures var r := RunOf(inputs);
            && Legal(r.log) && Disjoint(r.book)
            && (forall a: nat :: r.book.Covers(a) <==> !Judged(r.log, a).phase.Idle?)
            && (forall a: nat :: r.book.pending == Some(a) <==> Judged(r.log, a).phase.Asked?)
            && (forall a: nat :: GetOr(r.book.attempts, a, 0) == Judged(r.log, a).tries <= MAX_ATTEMPTS)
  {
    AgreesAlways(inputs);
    var r := RunOf(inputs);
    assert forall a: nat :: Judged(r.log, a) == Reading(r.book, a);
  }

  lemma {:induction false} AgreesAlways(inputs: seq<Input>)
    ensures Agrees(RunOf(inputs).book, RunOf(inputs).log)
  {
    if inputs == [] {
    } else {
      var before := inputs[..|inputs| - 1];
      AgreesAlways(before);
      var r := RunOf(before);
      match inputs[|inputs| - 1]
      case Refuse => AgreesRefused(r.book, r.log);
      case Reconcile(m, served) =>
        if m.clients.None? {
          AgreesBlind(r.book, r.log);
        } else {
          AgreesListing(r.book, r.log, m.clients.value, Desired(m.clients.value, m.canHost, served));
        }
    }
  }
}
