/**
 The claim bookkeeping of a comux host: which terminal attachments it holds, the one claim in
 flight, the attachments another host owns, and the retry budget. `Book` is the value of that
 state, `Claims` the object that updates it in place.
 */
module ClaimProtocol {
  import opened Prelude

  datatype Feature = Sidebar | Status | Overlays | Other(name: string)

  const FEATURES: set<Feature> := {Sidebar, Status, Overlays}

  const MAX_ATTEMPTS: nat := 3

  datatype Client = Client(id: nat, tag: string, claimed: set<Feature>)

  /** What `reconcile` reads of the mirrored server model. `clients` is None while the topic is
      unavailable or not yet received. */
  datatype Model = Model(clients: Option<seq<Client>>, canHost: bool)

  datatype ClaimOp = Ready(a: nat) | Gone(a: nat)

  datatype Book = Book(held: set<nat>, pending: Option<nat>, refused: set<nat>, attempts: map<nat, nat>) {
    predicate Covers(a: nat) {
      a in held || pending == Some(a)
    }
  }

  const EMPTY_BOOK := Book({}, None, {}, map[])

  predicate Listed(cs: seq<Client>, a: nat) {
    exists c :: c in cs && c.id == a
  }

  /** Some entry shows `a` with every feature a desktop host takes. */
  predicate Confirms(cs: seq<Client>, a: nat) {
    exists c :: c in cs && c.id == a && FEATURES <= c.claimed
  }

  predicate Unclaimed(cs: seq<Client>, a: nat) {
    exists c :: c in cs && c.id == a && c.claimed == {}
  }

  predicate ClaimedBySome(cs: seq<Client>, a: nat) {
    exists c :: c in cs && c.id == a && c.claimed != {}
  }

  function Desired(cs: seq<Client>, can: bool, served: set<string>): set<nat> {
    set c | c in cs && can && c.tag != "" && c.tag in served :: c.id
  }

  // ----- the specification of one reconcile -----

  predicate IsMin(s: set<nat>, m: nat) {
    m in s && forall x :: x in s ==> m <= x
  }

  lemma {:induction false} MinExists(s: set<nat>)
    requires s != {}
    ensures exists m :: IsMin(s, m)
  {
    var x :| x in s;
    var rest := s - {x};
    if rest == {} {
      assert s == {x};
      assert IsMin(s, x);
    } else {
      MinExists(rest);
      var m :| IsMin(rest, m);
      assert s == rest + {x};
      assert IsMin(s, if x <= m then x else m);
    }
  }

  ghost function Min(s: set<nat>): (m: nat)
    requires s != {}
    ensures IsMin(s, m)
  {
    MinExists(s);
    var m :| IsMin(s, m);
    m
  }

  /** The elements in ascending order, as an ordered set iterates. */
  ghost function Ascending(s: set<nat>): (r: seq<nat>)
    ensures forall x :: x in r <==> x in s
    decreases |s|
  {
    if s == {} then []
    else
      var m := Min(s);
      var r := Ascending(s - {m});
      assert forall x :: x in s <==> x == m || x in s - {m};
      [m] + r
  }

  function Gones(s: seq<nat>): seq<ClaimOp> {
    seq(|s|, i requires 0 <= i < |s| => Gone(s[i]))
  }

  ghost function Readies(pick: Option<nat>): seq<ClaimOp> {
    if pick.Some? then [Ready(pick.value)] else []
  }

  /** Confirmation of the claim in flight, then everything about a detached attachment is
      forgotten, and a refusal lapses once nobody owns the attachment. */
  ghost function Settled(b: Book, cs: seq<Client>): Book {
    var confirmed := b.pending.Some? && Confirms(cs, b.pending.value);
    var held := if confirmed then b.held + {b.pending.value} else b.held;
    var attempts := if confirmed then b.attempts - {b.pending.value} else b.attempts;
    Book(
      set a | a in held && Listed(cs, a),
      if confirmed || (b.pending.Some? && !Listed(cs, b.pending.value)) then None else b.pending,
      set a | a in b.refused && ClaimedBySome(cs, a),
      map a | a in attempts && Listed(cs, a) :: attempts[a])
  }

  /** What may be claimed next from book `b`: wanted, neither ours nor refused, under budget, and
      shown without an owner. */
  function Eligible(b: Book, cs: seq<Client>, desired: set<nat>): set<nat> {
    set a | a in desired && a !in b.held && a !in b.refused
            && GetOr(b.attempts, a, 0) < MAX_ATTEMPTS && Unclaimed(cs, a)
  }

  /** The smallest eligible attachment, unless a claim is still in flight. */
  ghost function Pick(b: Book, cs: seq<Client>, desired: set<nat>): Option<nat> {
    if b.pending.Some? || Eligible(b, cs, desired) == {} then None
    else Some(Min(Eligible(b, cs, desired)))
  }

  function Claiming(b: Book, pick: Option<nat>): Book {
    if pick.None? then b
    else b.(pending := pick, attempts := b.attempts[pick.value := GetOr(b.attempts, pick.value, 0) + 1])
  }

  datatype Outcome = Outcome(book: Book, ops: seq<ClaimOp>)

  ghost function Listing(b: Book, cs: seq<Client>, desired: set<nat>): Outcome {
    var s := Settled(b, cs);
    var kept := s.(held := s.held * desired);
    var pick := Pick(kept, cs, desired);
    Outcome(Claiming(kept, pick), Gones(Ascending(s.held - desired)) + Readies(pick))
  }

  ghost function Blind(b: Book): Outcome {
    Outcome(
      Book({}, None, b.refused, b.attempts),
      Gones(Ascending(b.held)) + (if b.pending.Some? then [Gone(b.pending.value)] else []))
  }

  ghost function Reconciled(b: Book, m: Model, served: set<string>): Outcome {
    if m.clients.None? then Blind(b)
    else Listing(b, m.clients.value, Desired(m.clients.value, m.canHost, served))
  }

  ghost function RefusedBook(b: Book): Book {
    if b.pending.Some? then b.(pending := None, refused := b.refused + {b.pending.value}) else b
  }

  // ----- the object -----

  class Claims {
    var held: set<nat>
    var pending: Option<nat>
    var refused: set<nat>
    var attempts: map<nat, nat>

    function View(): Book
      reads this
    {
      Book(held, pending, refused, attempts)
    }

    constructor ()
      ensures View() == EMPTY_BOOK
    {
      held, pending, refused, attempts := {}, None, {}, map[];
    }

    method Clear()
      modifies this
      ensures View() == EMPTY_BOOK
    {
      held, pending, refused, attempts := {}, None, {}, map[];
    }

    /** Emits a Gone for each element in ascending order. */
    static method ReleaseAll(s: set<nat>) returns (ops: seq<ClaimOp>)
      ensures ops == Gones(Ascending(s))
    {
      ops := [];
      var rest := s;
      while rest != {}
        invariant ops + Gones(Ascending(rest)) == Gones(Ascending(s))
        decreases rest
      {
        MinExists(rest);
        var m :| IsMin(rest, m);
        AscendingStep(rest, m);
        ops, rest := ops + [Gone(m)], rest - {m};
      }
    }

    method Reconcile(m: Model, served: set<string>) returns (ops: seq<ClaimOp>)
      modifies this
      ensures Outcome(View(), ops) == Reconciled(old(View()), m, served)
    {
      if m.clients.None? {
        ops := ReleaseAll(held);
        held := {};
        if pending.Some? {
          ops := ops + [Gone(pending.value)];
          pending := None;
        }
        return;
      }
      var cs := m.clients.value;
      var desired := Desired(cs, m.canHost, served);
      Settle(cs);
      var release := held - desired;
      ops := ReleaseAll(release);
      held := held * desired;
      var claim := ClaimNext(cs, desired);
      ops := ops + claim;
    }

    method ClaimNext(cs: seq<Client>, desired: set<nat>) returns (ops: seq<ClaimOp>)
      modifies this
      ensures View() == Claiming(old(View()), Pick(old(View()), cs, desired))
      ensures ops == Readies(Pick(old(View()), cs, desired))
    {
      ops := [];
      var eligible := Eligible(View(), cs, desired);
      if pending.None? && eligible != {} {
        MinExists(eligible);
        var a :| IsMin(eligible, a);
        pending := Some(a);
        attempts := attempts[a := GetOr(attempts, a, 0) + 1];
        ops := [Ready(a)];
      }
    }

    /** The first half of a reconcile: the server's list is believed about confirmations and
        detachments. */
    method Settle(cs: seq<Client>)
      modifies this
      ensures View() == Settled(old(View()), cs)
    {
      if pending.Some? && Confirms(cs, pending.value) {
        held := held + {pending.value};
        attempts := attempts - {pending.value};
        pending := None;
      }
      held := set a | a in held && Listed(cs, a);
      refused := set a | a in refused && Listed(cs, a);
      attempts := map a | a in attempts && Listed(cs, a) :: attempts[a];
      if pending.Some? && !Listed(cs, pending.value) {
        pending := None;
      }
      refused := set a | a in refused && ClaimedBySome(cs, a);
    }

    method Refuse()
      modifies this
      ensures View() == RefusedBook(old(View()))
    {
      if pending.Some? {
        refused := refused + {pending.value};
        pending := None;
      }
    }

    method CoversAttachment(a: nat) returns (r: bool)
      ensures r == View().Covers(a)
    {
      r := a in held || pending == Some(a);
    }
  }

  lemma AscendingStep(s: set<nat>, m: nat)
    requires IsMin(s, m)
    ensures Gones(Ascending(s)) == [Gone(m)] + Gones(Ascending(s - {m}))
  {
  }
}
