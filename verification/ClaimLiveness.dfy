/** A repeated reconcile on the same input is quiet, and exactly when. */
module ClaimLiveness {
  import opened Prelude
  import opened ClaimProtocol
  import opened ClaimLedger

  ghost predicate DistinctIds(cs: seq<Client>) {
    forall i, j :: 0 <= i < j < |cs| ==> cs[i].id != cs[j].id
  }

  /** The attachment a reconcile on this input newly claims. */
  ghost function Claimed(b: Book, m: Model, served: set<string>): Option<nat> {
    if m.clients.None? then None
    else
      var cs := m.clients.value;
      var desired := Desired(cs, m.canHost, served);
      var s := Settled(b, cs);
      Pick(s.(held := s.held * desired), cs, desired)
  }

  /** The list shows one attachment both without an owner and fully claimed. */
  ghost predicate Contradicts(m: Model, a: nat) {
    m.clients.Some? && Unclaimed(m.clients.value, a) && Confirms(m.clients.value, a)
  }

  /** A repeated reconcile on unchanged input changes nothing and sends nothing, except in exactly
      one case: the first call claimed an attachment that the same list also shows as fully
      claimed (two entries with one id). */
  lemma RepeatIsQuiet(b: Book, m: Model, served: set<string>)
    requires Disjoint(b)
    ensures var o := Reconciled(b, m, served);
            Reconciled(o.book, m, served) == Outcome(o.book, [])
            <==> !(Claimed(b, m, served).Some? && Contradicts(m, Claimed(b, m, served).value))
  {
  }

  /** So on any list with distinct ids a repeated reconcile is quiet. */
  lemma RepeatIsQuietOnDistinctIds(b: Book, m: Model, served: set<string>)
    requires Disjoint(b)
    requires m.clients.Some? ==> DistinctIds(m.clients.value)
    ensures var o := Reconciled(b, m, served);
            Reconciled(o.book, m, served) == Outcome(o.book, [])
  {
    RepeatIsQuiet(b, m, served);
    if m.clients.Some? {
      var cs := m.clients.value;
      forall a: nat | Unclaimed(cs, a)
        ensures !Confirms(cs, a)
      {
        assert Sidebar in FEATURES;
      }
    }
  }

  /** The excepted case is real: a list with two entries for attachment 3. */
  lemma RepeatCanBeLoud()
    ensures var cs := [Client(3, "t", {}), Client(3, "t", FEATURES)];
            var m := Model(Some(cs), true);
            var o := Reconciled(EMPTY_BOOK, m, {"t"});
            Reconciled(o.book, m, {"t"}) != Outcome(o.book, [])
  {
    var cs := [Client(3, "t", {}), Client(3, "t", FEATURES)];
    var m := Model(Some(cs), true);
    var desired := Desired(cs, true, {"t"});
    assert cs[0] in cs && cs[1] in cs;
    assert desired == {3};
    var s := Settled(EMPTY_BOOK, cs);
    var kept := s.(held := s.held * desired);
    assert 3 in Eligible(kept, cs, desired);
    assert Eligible(kept, cs, desired) == {3};
    RepeatIsQuiet(EMPTY_BOOK, m, {"t"});
  }
}
