/** Reducing a list of event-kind patterns to a minimal one that matches the same kinds. */
module Covering {
  import opened Prelude
  import opened Glob

  // ----- sorting and deduplicating, in the order of strings -----

  predicate Before(a: string, b: string) {
    if b == "" then false
    else if a == "" then true
    else a[0] < b[0] || (a[0] == b[0] && Before(a[1..], b[1..]))
  }

  lemma {:induction false} BeforeTotal(a: string, b: string)
    ensures a == b || Before(a, b) || Before(b, a)
    ensures Before(a, b) ==> a != b && !Before(b, a)
  {
    if a == "" || b == "" {
    } else {
      BeforeTotal(a[1..], b[1..]);
      if a[0] == b[0] && a[1..] == b[1..] {
        assert a == [a[0]] + a[1..] == b;
      }
    }
  }

  ghost predicate Differs(a: string, b: string) {
    exists i :: 0 <= i < |a| && i < |b| && a[..i] == b[..i] && a[i] < b[i]
  }

  /** The order of a dictionary: at the first difference the smaller character comes first, and a
      beginning comes before what goes on from it. */
  lemma {:induction false} BeforeExactly(a: string, b: string)
    ensures Before(a, b) <==> a < b || Differs(a, b)
  {
    if a == "" || b == "" {
    } else {
      BeforeExactly(a[1..], b[1..]);
      HeadThenRest(a, b);
    }
  }

  lemma HeadThenRest(a: string, b: string)
    requires a != "" && b != ""
    ensures Differs(a, b) <==> a[0] < b[0] || (a[0] == b[0] && Differs(a[1..], b[1..]))
    ensures a < b <==> a[0] == b[0] && a[1..] < b[1..]
  {
    if a[0] < b[0] {
      assert a[..0] == b[..0];
    }
    if a[0] == b[0] {
      assert a == [a[0]] + a[1..] && b == [a[0]] + b[1..];
      forall i | 0 <= i < |a[1..]| && i < |b[1..]| && a[1..][..i] == b[1..][..i]
        ensures a[..i + 1] == b[..i + 1]
      {
        assert a[..i + 1] == [a[0]] + a[1..][..i] && b[..i + 1] == [b[0]] + b[1..][..i];
      }
      forall i | 0 < i < |a| && i < |b| && a[..i] == b[..i]
        ensures a[1..][..i - 1] == b[1..][..i - 1]
      {
        assert a[1..][..i - 1] == a[..i][1..] && b[1..][..i - 1] == b[..i][1..];
      }
    }
  }

  lemma BeforeTransitive(a: string, b: string, c: string)
    requires Before(a, b) && Before(b, c)
    ensures Before(a, c)
  {
  }

  ghost predicate Increasing(s: seq<string>) {
    forall i, j :: 0 <= i < j < |s| ==> Before(s[i], s[j])
  }

  function Insert(s: seq<string>, p: string): (r: seq<string>)
    ensures forall x :: x in r <==> x == p || x in s
  {
    if s == [] then [p]
    else if p == s[0] then s
    else if Before(p, s[0]) then [p] + s
    else [s[0]] + Insert(s[1..], p)
  }

  lemma {:induction false} InsertIncreasing(s: seq<string>, p: string)
    requires Increasing(s)
    ensures Increasing(Insert(s, p))
  {
    if s == [] || p == s[0] {
    } else {
      BeforeTotal(p, s[0]);
      if Before(p, s[0]) {
        forall j | 0 <= j < |s|
          ensures Before(p, s[j])
        {
          if j > 0 {
            BeforeTransitive(p, s[0], s[j]);
          }
        }
      } else {
        var rest := Insert(s[1..], p);
        InsertIncreasing(s[1..], p);
        forall j | 0 <= j < |rest|
          ensures Before(s[0], rest[j])
        {
          assert rest[j] in rest;
        }
      }
    }
  }

  function SortDedup(s: seq<string>): (r: seq<string>)
    ensures forall x :: x in r <==> x in s
  {
    if s == [] then [] else Insert(SortDedup(s[1..]), s[0])
  }

  lemma {:induction false} SortDedupIncreasing(s: seq<string>)
    ensures Increasing(SortDedup(s))
  {
    if s == [] {
    } else {
      SortDedupIncreasing(s[1..]);
      InsertIncreasing(SortDedup(s[1..]), s[0]);
    }
  }

  // ----- the reduction -----

  predicate Covered(all: seq<string>, p: string) {
    exists q :: q in all && q != p && PatternCovers(q, p)
  }

  function Reduced(patterns: seq<string>): seq<string> {
    var all := SortDedup(patterns);
    if "*" in all then ["*"] else Filter(all, p => !Covered(all, p))
  }

  method IsCovered(all: seq<string>, p: string) returns (covered: bool)
    ensures covered == Covered(all, p)
  {
    covered := false;
    var j := 0;
    while j < |all| && !covered
      invariant 0 <= j <= |all|
      invariant covered ==> Covered(all, p)
      invariant !covered ==> forall k :: 0 <= k < j ==> all[k] == p || !PatternCovers(all[k], p)
      decreases |all| - j
    {
      covered := all[j] != p && PatternCovers(all[j], p);
      j := j + 1;
    }
  }

  method CoveringPatterns(patterns: seq<string>) returns (result: seq<string>)
    ensures result == Reduced(patterns)
  {
    var all := SortDedup(patterns);
    if "*" in all {
      return ["*"];
    }
    result := [];
    var i := 0;
    while i < |all|
      invariant 0 <= i <= |all|
      invariant result == Filter(all[..i], p => !Covered(all, p))
    {
      var covered := IsCovered(all, all[i]);
      if !covered {
        result := result + [all[i]];
      }
      FilterSnoc(all, i, p => !Covered(all, p));
      i := i + 1;
    }
    assert all[..i] == all;
  }

  // ----- what it means -----

  ghost function Coverers(all: seq<string>, p: string): set<string> {
    set q | q in all && q != p && PatternCovers(q, p)
  }

  /** Above every pattern there is one that nothing covers. */
  lemma {:induction false} TopCover(all: seq<string>, p: string) returns (top: string)
    requires p in all
    ensures top in all && !Covered(all, top) && (top == p || PatternCovers(top, p))
    decreases |Coverers(all, p)|
  {
    if !Covered(all, p) {
      top := p;
    } else {
      var q :| q in all && q != p && PatternCovers(q, p);
      forall r | r in Coverers(all, q)
        ensures r in Coverers(all, p)
      {
        CoversTransitive(r, q, p);
      }
      assert q in Coverers(all, p) && q !in Coverers(all, q);
      SmallerSet(Coverers(all, q), Coverers(all, p));
      top := TopCover(all, q);
      if top != q {
        CoversTransitive(top, q, p);
      }
    }
  }

  lemma ReducedMembers(patterns: seq<string>, p: string)
    ensures p in Reduced(patterns) ==> p in patterns
    ensures "*" !in patterns ==> (p in Reduced(patterns) <==> p in patterns && !Covered(SortDedup(patterns), p))
  {
    var all := SortDedup(patterns);
    FilterMembers(all, p => !Covered(all, p));
  }

  /** The reduced patterns match exactly the kinds the given ones match. */
  lemma SameKinds(patterns: seq<string>, kind: string)
    ensures AnyMatches(Reduced(patterns), kind) <==> AnyMatches(patterns, kind)
  {
    var all := SortDedup(patterns);
    if "*" in patterns {
      assert PatternMatches("*", kind) && "*" in Reduced(patterns);
    } else {
      if AnyMatches(patterns, kind) {
        var p :| p in patterns && PatternMatches(p, kind);
        var top := TopCover(all, p);
        ReducedMembers(patterns, top);
        assert top in Reduced(patterns) && PatternMatches(top, kind);
      }
      if AnyMatches(Reduced(patterns), kind) {
        var p :| p in Reduced(patterns) && PatternMatches(p, kind);
        ReducedMembers(patterns, p);
      }
    }
  }

  /** No kind is matched by two of the reduced patterns, so no event reaches two receivers. */
  lemma AtMostOneMatches(patterns: seq<string>, p: string, q: string, kind: string)
    requires p in Reduced(patterns) && q in Reduced(patterns)
    requires PatternMatches(p, kind) && PatternMatches(q, kind)
    ensures p == q
  {
    if p != q {
      SharedKindMeansCovered(p, q, kind);
      NoCoverInside(patterns, p, q);
      NoCoverInside(patterns, q, p);
    }
  }

  lemma NoCoverInside(patterns: seq<string>, p: string, q: string)
    requires p in Reduced(patterns) && q in Reduced(patterns) && p != q
    ensures !PatternCovers(p, q)
  {
    ReducedMembers(patterns, p);
    ReducedMembers(patterns, q);
    var all := SortDedup(patterns);
    if "*" !in all {
      assert !Covered(all, q) && p in all;
    }
  }

  /** No reduced pattern is redundant: each matches a kind (its own text) no other one matches. */
  lemma NoneRedundant(patterns: seq<string>, p: string)
    requires p in Reduced(patterns)
    ensures PatternMatches(p, p)
    ensures forall q :: q in Reduced(patterns) && q != p ==> !PatternMatches(q, p)
  {
    MatchesItself(p);
    forall q | q in Reduced(patterns) && PatternMatches(q, p)
      ensures q == p
    {
      AtMostOneMatches(patterns, p, q, p);
    }
  }

  /** The result is in strictly increasing order, so it lists no pattern twice. */
  lemma ReducedIncreasing(patterns: seq<string>)
    ensures Increasing(Reduced(patterns))
  {
    SortDedupIncreasing(patterns);
    var all := SortDedup(patterns);
    FilterIncreasing(all, p => !Covered(all, p));
  }

  lemma {:induction false} FilterIncreasing(s: seq<string>, keep: string -> bool)
    requires Increasing(s)
    ensures Increasing(Filter(s, keep))
  {
    if s == [] {
    } else {
      var rest := Filter(s[1..], keep);
      FilterIncreasing(s[1..], keep);
      FilterMembers(s[1..], keep);
      forall j | 0 <= j < |rest|
        ensures Before(s[0], rest[j])
      {
        assert rest[j] in s[1..];
      }
    }
  }
}
