/**
 Event-kind patterns: `*` matches everything, `foo.*` every kind that starts with `foo.`, anything
 else only itself. `CoveringPatterns` reduces a list of patterns to the ones the bus is really
 subscribed to.
 */
module Glob {

  predicate IsWild(p: string) {
    |p| >= 2 && p[|p| - 2..] == ".*"
  }

  function Stem(p: string): string
    requires IsWild(p)
  {
    p[..|p| - 2]
  }

  /** `stem`, then a dot: the test shared by matching and covering. */
  predicate DottedPrefix(stem: string, s: string) {
    |s| > |stem| && stem <= s && s[|stem|] == '.'
  }

  predicate PatternMatches(p: string, kind: string) {
    if p == "*" then true
    else if IsWild(p) then DottedPrefix(Stem(p), kind)
    else p == kind
  }

  predicate AnyMatches(patterns: seq<string>, kind: string) {
    exists p :: p in patterns && PatternMatches(p, kind)
  }

  predicate PatternCovers(broader: string, narrower: string) {
    if broader == "*" then true
    else if !IsWild(broader) then false
    else if IsWild(narrower) then DottedPrefix(Stem(broader), Stem(narrower))
    else DottedPrefix(Stem(broader), narrower)
  }

  /** What a pattern stands for: everything, its own text, or whatever continues its stem past a dot. */
  ghost predicate StandsFor(p: string, kind: string) {
    p == "*" || p == kind || exists stem, rest :: p == stem + ".*" && kind == stem + "." + rest
  }

  lemma MatchesExactly(p: string, kind: string)
    ensures PatternMatches(p, kind) <==> StandsFor(p, kind)
  {
    if p != "*" && IsWild(p) && DottedPrefix(Stem(p), kind) {
      var stem := Stem(p);
      assert p == stem + ".*" && kind == stem + "." + kind[|stem| + 1..];
    }
    forall stem, rest | p == stem + ".*" && kind == stem + "." + rest
      ensures PatternMatches(p, kind)
    {
      assert p[|p| - 2..] == ".*" && Stem(p) == stem;
    }
  }

  // ----- languages -----

  ghost predicate Includes(p: string, q: string) {
    forall kind :: PatternMatches(q, kind) ==> PatternMatches(p, kind)
  }

  ghost predicate StrictlyIncludes(p: string, q: string) {
    Includes(p, q) && exists kind :: PatternMatches(p, kind) && !PatternMatches(q, kind)
  }

  lemma MatchesItself(p: string)
    ensures PatternMatches(p, p)
  {
  }

  /** A kind that a covering pattern `p` matches and the covered `q` does not. */
  function KindBeyond(p: string, q: string): string {
    if p == "*" then if q == "" then "x" else ""
    else if IsWild(p) && IsWild(q) then Stem(p) + "."
    else p
  }

  /** A kind that `q` matches and a pattern `p` that does not cover it misses. */
  function KindMissed(p: string, q: string): string {
    if q == "*" then if p == "" then "x" else ""
    else if IsWild(q) && IsWild(p) then Stem(q) + "."
    else q
  }

  lemma CoveringIsStrict(p: string, q: string)
    requires p != q && PatternCovers(p, q)
    ensures StrictlyIncludes(p, q)
  {
    CoveringIncludes(p, q);
    var kind := KindBeyond(p, q);
    assert PatternMatches(p, kind) && !PatternMatches(q, kind);
  }

  lemma CoveringIncludes(p: string, q: string)
    requires PatternCovers(p, q)
    ensures Includes(p, q)
  {
  }

  lemma WildText(p: string)
    requires IsWild(p)
    ensures p == Stem(p) + ".*"
  {
  }

  lemma UncoveredMisses(p: string, q: string)
    requires p != q && !PatternCovers(p, q)
    ensures PatternMatches(q, KindMissed(p, q)) && !PatternMatches(p, KindMissed(p, q))
  {
    if IsWild(p) && IsWild(q) {
      WildText(p);
      WildText(q);
    }
  }

  lemma OnlyStarCoversItself(p: string)
    ensures PatternCovers(p, p) <==> p == "*"
  {
    if p != "*" && IsWild(p) {
      assert !DottedPrefix(Stem(p), Stem(p));
    }
  }

  /** Covering is exactly strict inclusion of what the patterns match, except that `*` also covers
      itself. */
  lemma CoversIsStrictInclusion(p: string, q: string)
    ensures PatternCovers(p, q) <==> StrictlyIncludes(p, q) || (p == "*" && q == "*")
  {
    if p == q {
      OnlyStarCoversItself(p);
    } else if PatternCovers(p, q) {
      CoveringIsStrict(p, q);
    } else {
      UncoveredMisses(p, q);
    }
  }

  /** Patterns form a forest: two that share a kind are equal or one covers the other. */
  lemma SharedKindMeansCovered(p: string, q: string, kind: string)
    requires p != q && PatternMatches(p, kind) && PatternMatches(q, kind)
    ensures PatternCovers(p, q) || PatternCovers(q, p)
  {
  }

  lemma CoversTransitive(p: string, q: string, r: string)
    requires PatternCovers(p, q) && PatternCovers(q, r) && p != q
    ensures PatternCovers(p, r) && p != r
  {
  }
}
