/** Small shared vocabulary: options, results and sequence filtering. */
module Prelude {

  datatype Option<+T> = None | Some(value: T)

  datatype Result<+T, +E> = Ok(value: T) | Err(error: E)

  function GetOr<K, V>(m: map<K, V>, k: K, default: V): V {
    if k in m then m[k] else default
  }

  /** The elements of `s` that satisfy `keep`, in order. */
  function Filter<T(!new)>(s: seq<T>, keep: T -> bool): (r: seq<T>)
    ensures |r| <= |s|
  {
    if s == [] then []
    else (if keep(s[0]) then [s[0]] else []) + Filter(s[1..], keep)
  }

  lemma {:induction false} FilterMembers<T(!new)>(s: seq<T>, keep: T -> bool)
    ensures forall x :: x in Filter(s, keep) <==> x in s && keep(x)
  {
    if s == [] {
    } else {
      FilterMembers(s[1..], keep);
      assert forall x :: x in s <==> x == s[0] || x in s[1..];
    }
  }

  lemma FilterHead<T(!new)>(s: seq<T>, keep: T -> bool)
    requires s != []
    ensures Filter(s, keep) == if keep(s[0]) then [s[0]] + Filter(s[1..], keep) else Filter(s[1..], keep)
  {
  }

  lemma FilterCons<T(!new)>(x: T, s: seq<T>, keep: T -> bool)
    ensures Filter([x] + s, keep) == if keep(x) then [x] + Filter(s, keep) else Filter(s, keep)
  {
    assert ([x] + s)[1..] == s;
    FilterHead([x] + s, keep);
  }

  lemma {:induction false} FilterConcat<T(!new)>(a: seq<T>, b: seq<T>, keep: T -> bool)
    ensures Filter(a + b, keep) == Filter(a, keep) + Filter(b, keep)
  {
    var rest := Filter(b, keep);
    if a == [] {
      assert a + b == b;
      assert [] + rest == rest;
    } else {
      ConcatTail(a, b);
      FilterHead(a, keep);
      FilterHead(a + b, keep);
      FilterConcat(a[1..], b, keep);
      ConcatAssoc([a[0]], Filter(a[1..], keep), rest);
    }
  }

  lemma ConcatAssoc<T>(a: seq<T>, b: seq<T>, c: seq<T>)
    ensures a + (b + c) == a + b + c
  {
  }

  lemma AppendNothing<T>(s: seq<T>)
    ensures s + [] == s
  {
  }

  lemma ConcatTail<T>(a: seq<T>, b: seq<T>)
    requires a != []
    ensures (a + b)[0] == a[0] && (a + b)[1..] == a[1..] + b
  {
  }

  lemma FilterSnoc<T(!new)>(s: seq<T>, i: nat, keep: T -> bool)
    requires i < |s|
    ensures Filter(s[..i + 1], keep) == Filter(s[..i], keep) + if keep(s[i]) then [s[i]] else []
  {
    assert s[..i + 1] == s[..i] + [s[i]];
    FilterConcat(s[..i], [s[i]], keep);
  }

  /** Filtering twice is filtering by both tests. */
  lemma {:induction false} FilterTwice<T(!new)>(s: seq<T>, a: T -> bool, b: T -> bool, both: T -> bool)
    requires forall x :: both(x) <==> a(x) && b(x)
    ensures Filter(Filter(s, a), b) == Filter(s, both)
  {
    if s == [] {
    } else {
      FilterTwice(s[1..], a, b, both);
      FilterHead(s, a);
      FilterHead(s, both);
      FilterConcat([s[0]], Filter(s[1..], a), b);
    }
  }

  lemma {:induction false} FilterNone<T(!new)>(s: seq<T>, keep: T -> bool)
    requires forall x :: x in s ==> !keep(x)
    ensures Filter(s, keep) == []
  {
    if s == [] {
    } else {
      assert s[0] in s;
      assert forall x :: x in s[1..] ==> x in s;
      FilterNone(s[1..], keep);
    }
  }

  lemma {:induction false} FilterAll<T(!new)>(s: seq<T>, keep: T -> bool)
    requires forall x :: x in s ==> keep(x)
    ensures Filter(s, keep) == s
  {
    if s == [] {
    } else {
      assert s[0] in s;
      assert forall x :: x in s[1..] ==> x in s;
      FilterAll(s[1..], keep);
      assert [s[0]] + s[1..] == s;
    }
  }

  lemma {:induction false} FilterSame<T(!new)>(s: seq<T>, a: T -> bool, b: T -> bool)
    requires forall x :: x in s ==> a(x) == b(x)
    ensures Filter(s, a) == Filter(s, b)
  {
    if s == [] {
    } else {
      assert s[0] in s;
      assert forall x :: x in s[1..] ==> x in s;
      FilterSame(s[1..], a, b);
    }
  }

  /** The order of two filters does not matter. */
  lemma {:induction false} FilterSwap<T(!new)>(s: seq<T>, a: T -> bool, b: T -> bool)
    ensures Filter(Filter(s, a), b) == Filter(Filter(s, b), a)
  {
    if s == [] {
    } else {
      FilterSwap(s[1..], a, b);
      FilterHead(s, a);
      FilterHead(s, b);
      var fa, fb := Filter(s[1..], a), Filter(s[1..], b);
      FilterConcat([s[0]], fa, b);
      FilterConcat([s[0]], fb, a);
    }
  }

  ghost predicate Distinct<T>(s: seq<T>) {
    forall i, j :: 0 <= i < j < |s| ==> s[i] != s[j]
  }

  lemma DistinctHead<T(!new)>(x: T, rest: seq<T>)
    requires Distinct(rest) && x !in rest
    ensures Distinct([x] + rest)
  {
  }

  lemma {:induction false} FilterDistinct<T(!new)>(s: seq<T>, keep: T -> bool)
    requires Distinct(s)
    ensures Distinct(Filter(s, keep))
  {
    if s == [] {
    } else {
      FilterDistinct(s[1..], keep);
      FilterHead(s, keep);
      if keep(s[0]) {
        FilterMembers(s[1..], keep);
        DistinctHead(s[0], Filter(s[1..], keep));
      }
    }
  }

  // ----- counting -----

  function Count<T>(s: seq<T>, p: T -> bool): nat {
    if s == [] then 0 else (if p(s[0]) then 1 else 0) + Count(s[1..], p)
  }

  lemma {:induction false} CountConcat<T>(a: seq<T>, b: seq<T>, p: T -> bool)
    ensures Count(a + b, p) == Count(a, p) + Count(b, p)
  {
    if a == [] {
      assert a + b == b;
    } else {
      assert (a + b)[1..] == a[1..] + b;
      CountConcat(a[1..], b, p);
    }
  }

  lemma CountSnoc<T>(s: seq<T>, x: T, p: T -> bool)
    ensures Count(s + [x], p) == Count(s, p) + if p(x) then 1 else 0
  {
    CountConcat(s, [x], p);
  }

  function RemoveAt<T>(s: seq<T>, i: nat): seq<T>
    requires i < |s|
  {
    s[..i] + s[i + 1..]
  }

  lemma RemovedAt<T>(s: seq<T>, i: nat, k: nat)
    requires i < |s| && k < |s| - 1
    ensures RemoveAt(s, i)[k] == s[if k < i then k else k + 1]
  {
  }

  lemma AroundAt<T>(s: seq<T>, i: nat)
    requires i < |s|
    ensures s == s[..i] + [s[i]] + s[i + 1..]
  {
  }

  lemma OthersRemain<T>(s: seq<T>, i: nat, x: T)
    requires i < |s| && x in s && x != s[i]
    ensures x in RemoveAt(s, i)
  {
    AroundAt(s, i);
  }

  lemma CountRemoveAt<T>(s: seq<T>, i: nat, p: T -> bool)
    requires i < |s|
    ensures Count(s, p) == Count(RemoveAt(s, i), p) + if p(s[i]) then 1 else 0
  {
    AroundAt(s, i);
    CountConcat(s[..i], s[i + 1..], p);
    CountConcat(s[..i] + [s[i]], s[i + 1..], p);
    CountSnoc(s[..i], s[i], p);
  }

  /** Splitting a sequence in two by a test loses and adds nothing. */
  lemma {:induction false} CountSplit<T(!new)>(s: seq<T>, keep: T -> bool, drop: T -> bool, p: T -> bool)
    requires forall x :: keep(x) <==> !drop(x)
    ensures Count(s, p) == Count(Filter(s, keep), p) + Count(Filter(s, drop), p)
  {
    if s == [] {
    } else {
      CountSplit(s[1..], keep, drop, p);
      FilterHead(s, keep);
      FilterHead(s, drop);
      CountConcat([s[0]], Filter(s[1..], keep), p);
      CountConcat([s[0]], Filter(s[1..], drop), p);
    }
  }

  lemma {:induction false} CountZero<T>(s: seq<T>, p: T -> bool)
    ensures Count(s, p) == 0 <==> forall x :: x in s ==> !p(x)
  {
    if s == [] {
    } else {
      CountZero(s[1..], p);
      assert forall x :: x in s <==> x == s[0] || x in s[1..];
    }
  }

  // ----- sets -----

  lemma SubsetSize<T>(a: set<T>, b: set<T>)
    requires a <= b
    ensures |a| <= |b|
  {
    assert b == a + (b - a);
  }

  lemma SmallerSet<T>(a: set<T>, b: set<T>)
    requires a < b
    ensures |a| < |b|
  {
    var x :| x in b && x !in a;
    SubsetSize(a + {x}, b);
  }

  // ----- searching -----

  /** The first index whose element satisfies `p`, or the length. */
  function FirstIndex<T>(s: seq<T>, p: T -> bool): (r: nat)
    ensures r <= |s|
    ensures r < |s| ==> p(s[r])
    ensures forall k :: 0 <= k < r ==> !p(s[k])
  {
    if s == [] || p(s[0]) then 0 else 1 + FirstIndex(s[1..], p)
  }

  /** Filtering around one element. */
  lemma FilterAround<T(!new)>(s: seq<T>, a: seq<T>, x: T, b: seq<T>, keep: T -> bool)
    requires s == a + [x] + b
    ensures Filter(s, keep) == Filter(a, keep) + (if keep(x) then [x] else []) + Filter(b, keep)
    ensures Filter(a + b, keep) == Filter(a, keep) + Filter(b, keep)
  {
    FilterConcat(a + [x], b, keep);
    FilterConcat(a, [x], keep);
    FilterConcat(a, b, keep);
  }

  /** Two elements a filter keeps stand in the same order in the whole. */
  lemma {:induction false} FilterPositions<T(!new)>(s: seq<T>, keep: T -> bool, i: nat, j: nat)
    returns (p: nat, q: nat)
    requires i < j < |Filter(s, keep)|
    ensures p < q < |s| && s[p] == Filter(s, keep)[i] && s[q] == Filter(s, keep)[j]
  {
    FilterHead(s, keep);
    if !keep(s[0]) {
      p, q := FilterPositions(s[1..], keep, i, j);
      p, q := p + 1, q + 1;
    } else if i == 0 {
      q := FilterPosition(s[1..], keep, j - 1);
      p, q := 0, q + 1;
    } else {
      p, q := FilterPositions(s[1..], keep, i - 1, j - 1);
      p, q := p + 1, q + 1;
    }
  }

  lemma {:induction false} FilterPosition<T(!new)>(s: seq<T>, keep: T -> bool, i: nat) returns (p: nat)
    requires i < |Filter(s, keep)|
    ensures p < |s| && s[p] == Filter(s, keep)[i]
  {
    FilterHead(s, keep);
    if keep(s[0]) && i == 0 {
      p := 0;
    } else {
      p := FilterPosition(s[1..], keep, if keep(s[0]) then i - 1 else i);
      p := p + 1;
    }
  }
}
