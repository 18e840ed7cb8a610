/**
 What one reconcile comes to, said of the entries of the server's list themselves: which
 attachments are held afterwards, which claim is sent, which are released, what stays refused and
 what is left of each budget.
 */
module ClaimLaws {
  import opened Prelude
  import opened ClaimProtocol
  import opened ClaimLedger

  // ----- what the list shows -----

  /** The server can host and some entry shows `a` with a tag of one of our windows. */
  predicate Wanted(m: Model, served: set<string>, a: nat) {
    m.clients.Some? && m.canHost
    && exists c :: c in m.clients.value && c.id == a && c.tag != "" && c.tag in served
  }

  predicate Attached(m: Model, a: nat) {
    m.clients.Some? && exists c :: c in m.clients.value && c.id == a
  }

  predicate Unowned(m: Model, a: nat) {
    m.clients.Some? && exists c :: c in m.clients.value && c.id == a && |c.claimed| == 0
  }

  predicate Owned(m: Model, a: nat) {
    m.clients.Some? && exists c :: c in m.clients.value && c.id == a && |c.claimed| > 0
  }

  /** One entry shows `a` with the sidebar, the status bar and the overlays taken over. */
  predicate FullyClaimed(m: Model, a: nat) {
    m.clients.Some?
    && exists c :: c in m.clients.value && c.id == a
                   && Sidebar in c.claimed && Status in c.claimed && Overlays in c.claimed
  }

  /** Ours once the list is believed: held before, or claimed and now shown as claimed. */
  predicate Ours(b: Book, m: Model, a: nat) {
    a in b.held || (b.pending == Some(a) && FullyClaimed(m, a))
  }

  /** A claim is in flight and the list says neither that it was honoured nor that it is void. */
  predicate InFlight(b: Book, m: Model) {
    b.pending.Some? && Attached(m, b.pending.value) && !FullyClaimed(m, b.pending.value)
  }

  /** `a` may be claimed: a window of ours, nobody's, not refused while somebody owns it, and claimed
      fewer than three times. */
  predicate MayClaim(b: Book, m: Model, served: set<string>, a: nat) {
    && Wanted(m, served, a) && Unowned(m, a) && !Ours(b, m, a)
    && !(a in b.refused && Owned(m, a))
    && (a in b.attempts ==> b.attempts[a] < 3)
  }

  // ----- the model's own tests, in these terms -----

  lemma TestsAgree(m: Model, served: set<string>, a: nat)
    requires m.clients.Some?
    ensures var cs := m.clients.value;
            && (a in Desired(cs, m.canHost, served) <==> Wanted(m, served, a))
            && (Listed(cs, a) <==> Attached(m, a))
            && (Unclaimed(cs, a) <==> Unowned(m, a))
            && (ClaimedBySome(cs, a) <==> Owned(m, a))
            && (Confirms(cs, a) <==> FullyClaimed(m, a))
  {
    forall c: Client
      ensures c.claimed == {} <==> |c.claimed| == 0
      ensures FEATURES <= c.claimed <==> Sidebar in c.claimed && Status in c.claimed && Overlays in c.claimed
    {
    }
  }

  // ----- the laws -----

  /** Held afterwards is exactly what a window of ours shows, on a server that can host, and was ours. */
  lemma HeldExactly(b: Book, m: Model, served: set<string>, a: nat)
    ensures a in Reconciled(b, m, served).book.held <==> Wanted(m, served, a) && Ours(b, m, a)
  {
    if m.clients.Some? {
      TestsAgree(m, served, a);
      WantedIsAttached(m, served, a);
    }
  }

  lemma WantedIsAttached(m: Model, served: set<string>, a: nat)
    ensures Wanted(m, served, a) ==> Attached(m, a)
    ensures FullyClaimed(m, a) ==> Attached(m, a)
  {
  }

  lemma EligibleExactly(b: Book, m: Model, served: set<string>, a: nat)
    requires m.clients.Some?
    ensures var cs := m.clients.value;
            var desired := Desired(cs, m.canHost, served);
            var s := Settled(b, cs);
            a in Eligible(s.(held := s.held * desired), cs, desired) <==> MayClaim(b, m, served, a)
  {
    TestsAgree(m, served, a);
    WantedIsAttached(m, served, a);
  }

  lemma PendingSettles(b: Book, m: Model)
    requires m.clients.Some?
    ensures Settled(b, m.clients.value).pending == if InFlight(b, m) then b.pending else None
  {
    if b.pending.Some? {
      TestsAgree(m, {}, b.pending.value);
      WantedIsAttached(m, {}, b.pending.value);
    }
  }

  /** The one new claim is of the smallest attachment that may be claimed, and is made whenever there
      is one and no claim is in flight. */
  lemma ClaimExactly(b: Book, m: Model, served: set<string>, a: nat)
    ensures Ready(a) in Reconciled(b, m, served).ops <==>
            m.clients.Some? && !InFlight(b, m) && MayClaim(b, m, served, a)
            && forall x: nat :: MayClaim(b, m, served, x) ==> a <= x
    ensures Reconciled(b, m, served).book.pending == Some(a) <==>
            m.clients.Some?
            && if InFlight(b, m) then b.pending == Some(a) else Ready(a) in Reconciled(b, m, served).ops
  {
    if m.clients.Some? {
      var cs := m.clients.value;
      var desired := Desired(cs, m.canHost, served);
      var s := Settled(b, cs);
      var kept := s.(held := s.held * desired);
      PendingSettles(b, m);
      forall x: nat
        ensures x in Eligible(kept, cs, desired) <==> MayClaim(b, m, served, x)
      {
        EligibleExactly(b, m, served, x);
      }
      ReadyIsPick(Gones(Ascending(s.held - desired)), Pick(kept, cs, desired), a);
    }
  }

  lemma ReadyIsPick(gones: seq<ClaimOp>, pick: Option<nat>, a: nat)
    requires forall op :: op in gones ==> op.Gone?
    ensures Ready(a) in gones + Readies(pick) <==> pick == Some(a)
  {
    assert pick == Some(a) ==> Readies(pick)[0] == Ready(a);
  }

  lemma GoneIsReleased(release: set<nat>, a: nat)
    ensures Gone(a) in Gones(Ascending(release)) <==> a in release
  {
    var order := Ascending(release);
    if a in release {
      var i :| 0 <= i < |order| && order[i] == a;
      assert Gones(order)[i] == Gone(a);
    }
    if Gone(a) in Gones(order) {
      var i :| 0 <= i < |order| && Gones(order)[i] == Gone(a);
      assert order[i] in order;
    }
  }

  /** Released is exactly what was ours, is attached and is not wanted; without a list, everything held
      and the claim in flight. */
  lemma ReleaseExactly(b: Book, m: Model, served: set<string>, a: nat)
    ensures Gone(a) in Reconciled(b, m, served).ops <==>
            if m.clients.Some? then Ours(b, m, a) && Attached(m, a) && !Wanted(m, served, a)
            else a in b.held || b.pending == Some(a)
  {
    if m.clients.Some? {
      var cs := m.clients.value;
      var desired := Desired(cs, m.canHost, served);
      var s := Settled(b, cs);
      TestsAgree(m, served, a);
      WantedIsAttached(m, served, a);
      GoneIsReleased(s.held - desired, a);
      var pick := Pick(s.(held := s.held * desired), cs, desired);
      assert Gone(a) !in Readies(pick);
    } else {
      GoneIsReleased(b.held, a);
    }
  }

  /** Releases come first, smallest attachment first, the claim last and alone; without a list the
      claim in flight is released last. */
  lemma InOrder(b: Book, m: Model, served: set<string>, i: nat, j: nat)
    requires i < j < |Reconciled(b, m, served).ops|
    ensures var ops := Reconciled(b, m, served).ops;
            && ops[i].Gone?
            && (m.clients.Some? && ops[j].Gone? ==> ops[i].a < ops[j].a)
            && (m.clients.None? && j < |ops| - 1 ==> ops[i].a < ops[j].a)
            && (m.clients.None? && b.pending.Some? ==> ops[|ops| - 1] == Gone(b.pending.value))
  {
    if m.clients.Some? {
      var desired := Desired(m.clients.value, m.canHost, served);
      AscendingDistinct(Settled(b, m.clients.value).held - desired);
    } else {
      AscendingDistinct(b.held);
    }
  }

  /** What stays refused: with a list, what was refused and still has an owner. */
  lemma RefusedExactly(b: Book, m: Model, served: set<string>, a: nat)
    ensures a in Reconciled(b, m, served).book.refused <==> a in b.refused && (m.clients.Some? ==> Owned(m, a))
  {
    if m.clients.Some? {
      TestsAgree(m, served, a);
    }
  }

  /** The count of claims in a row starts again when `a` detaches or its claim is honoured, and grows
      by one with each claim. */
  lemma BudgetExactly(b: Book, m: Model, served: set<string>, a: nat)
    ensures var o := Reconciled(b, m, served);
            var again := m.clients.Some? && (!Attached(m, a) || (b.pending == Some(a) && FullyClaimed(m, a)));
            GetOr(o.book.attempts, a, 0)
            == (if again then 0 else GetOr(b.attempts, a, 0)) + (if Ready(a) in o.ops then 1 else 0)
  {
    if m.clients.Some? {
      var cs := m.clients.value;
      var desired := Desired(cs, m.canHost, served);
      var s := Settled(b, cs);
      TestsAgree(m, served, a);
      ReadyIsPick(Gones(Ascending(s.held - desired)), Pick(s.(held := s.held * desired), cs, desired), a);
    }
  }

  /** A refusal ends the claim in flight and remembers it; nothing else changes. */
  lemma RefusalExactly(b: Book, a: nat)
    ensures var after := RefusedBook(b);
            && after.pending == None && after.held == b.held && after.attempts == b.attempts
            && (a in after.refused <==> a in b.refused || b.pending == Some(a))
  {
  }

  /** On a server that cannot host, nothing stays held and nothing is claimed. */
  lemma CannotHost(b: Book, m: Model, served: set<string>)
    requires !m.canHost
    ensures Reconciled(b, m, served).book.held == {}
    ensures forall op :: op in Reconciled(b, m, served).ops ==> op.Gone?
  {
    forall a | a in Reconciled(b, m, served).book.held
      ensures false
    {
      HeldExactly(b, m, served, a);
    }
    forall op | op in Reconciled(b, m, served).ops
      ensures op.Gone?
    {
      ClaimExactly(b, m, served, op.a);
    }
  }
}
