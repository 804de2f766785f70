/** The three comparisons of pattern lists (pkg/aclrbac/plan/existing.go,
    pkg/aclrbac/apply/apply.go, pkg/aclrbac/verify/bindings_exist.go). */
module Patterns {
  import opened Ordering
  import opened Types

  /** The meaning of equality and containment of pattern lists: as multisets. */
  predicate SamePatterns(a: seq<Pattern>, b: seq<Pattern>) { multiset(a) == multiset(b) }

  predicate PatternsWithin(want: seq<Pattern>, have: seq<Pattern>) { multiset(want) <= multiset(have) }

  predicate PatternLess(a: Pattern, b: Pattern) {
    FieldsLess([ResourceText(a.resourceType), a.patternType, a.name], [ResourceText(b.resourceType), b.patternType, b.name])
  }

  lemma PatternLessIsOrder()
    ensures StrictTotalOrder(PatternLess)
  {
    FieldsLessIsOrder();
    forall a, b ensures PatternLess(a, b) || a == b || PatternLess(b, a) {
      var s := [ResourceText(a.resourceType), a.patternType, a.name];
      var t := [ResourceText(b.resourceType), b.patternType, b.name];
      if s == t {
        assert s[0] == t[0] && s[1] == t[1] && s[2] == t[2];
        TextsInjective(a.resourceType, b.resourceType);
      }
    }
    forall a, b, c | PatternLess(a, b) && PatternLess(b, c) ensures PatternLess(a, c) {}
    forall a ensures !PatternLess(a, a) {}
  }

  lemma SortedFormDecides(a: seq<Pattern>, b: seq<Pattern>)
    ensures Sort(PatternLess, a) == Sort(PatternLess, b) <==> SamePatterns(a, b)
  {
    PatternLessIsOrder();
    if SamePatterns(a, b) { SortIgnoresOrder(PatternLess, a, b); }
  }

  method EqualSlots(a: seq<Pattern>, b: seq<Pattern>) returns (equal: bool)
    requires |a| == |b|
    ensures equal == (a == b)
  {
    for i := 0 to |a|
      invariant a[..i] == b[..i]
    {
      if a[i] != b[i] { return false; }
    }
    assert a[..|a|] == a && b[..|b|] == b;
    return true;
  }

  /** The planner's form: sort copies, then compare slot by slot. */
  method PatternsEqualBySorting(a: seq<Pattern>, b: seq<Pattern>) returns (equal: bool)
    ensures equal == SamePatterns(a, b)
  {
    if |a| != |b| {
      assert |multiset(a)| == |a| && |multiset(b)| == |b|;
      return false;
    }
    SortedFormDecides(a, b);
    hide *;
    equal := EqualSlots(Sort(PatternLess, a), Sort(PatternLess, b));
  }

  /** A Go map of counts: absent keys read as zero. */
  function Count(counts: map<Pattern, int>, p: Pattern): int {
    if p in counts then counts[p] else 0
  }

  lemma TakeOne(s: seq<Pattern>, i: nat)
    requires i < |s|
    ensures multiset(s[..i + 1]) == multiset(s[..i]) + multiset{s[i]}
  {
    assert s[..i + 1] == s[..i] + [s[i]];
  }

  method CountPatterns(s: seq<Pattern>) returns (counts: map<Pattern, int>)
    ensures forall p :: Count(counts, p) == multiset(s)[p]
  {
    counts := map[];
    for i := 0 to |s|
      invariant forall p :: Count(counts, p) == multiset(s[..i])[p]
    {
      TakeOne(s, i);
      counts := counts[s[i] := Count(counts, s[i]) + 1];
    }
    assert s[..|s|] == s;
  }

  /** The counts of `all` left after taking `taken` out of it. */
  ghost predicate CountsLeft(counts: map<Pattern, int>, all: multiset<Pattern>, taken: multiset<Pattern>) {
    forall p :: 0 <= Count(counts, p) && Count(counts, p) + taken[p] == all[p]
  }

  lemma CountDown(counts: map<Pattern, int>, all: multiset<Pattern>, taken: multiset<Pattern>, p: Pattern)
    requires CountsLeft(counts, all, taken)
    ensures Count(counts, p) > 0 ==> CountsLeft(counts[p := Count(counts, p) - 1], all, taken + multiset{p})
    ensures Count(counts, p) == 0 ==> (taken + multiset{p})[p] > all[p]
  {
    var counts', taken' := counts[p := Count(counts, p) - 1], taken + multiset{p};
    forall q | Count(counts, p) > 0 ensures 0 <= Count(counts', q) && Count(counts', q) + taken'[q] == all[q] {
      assert Count(counts, q) + taken[q] == all[q];
      assert taken'[q] == taken[q] + (if q == p then 1 else 0);
    }
    assert Count(counts, p) + taken[p] == all[p];
  }

  lemma PrefixWithin(s: seq<Pattern>, i: nat)
    requires i <= |s|
    ensures multiset(s[..i]) <= multiset(s)
  {
    assert s == s[..i] + s[i..];
  }

  /** The apply stage's form: count up over one list, count down over the other. */
  method PatternsEqualByCounting(a: seq<Pattern>, b: seq<Pattern>) returns (equal: bool)
    ensures equal == SamePatterns(a, b)
  {
    assert |multiset(a)| == |a| && |multiset(b)| == |b|;
    if |a| != |b| { return false; }
    var count := CountPatterns(a);
    for i := 0 to |b|
      invariant CountsLeft(count, multiset(a), multiset(b[..i]))
    {
      TakeOne(b, i);
      if Count(count, b[i]) == 0 {
        PrefixWithin(b, i + 1);
        assert multiset(b)[b[i]] > multiset(a)[b[i]];
        return false;
      }
      CountDown(count, multiset(a), multiset(b[..i]), b[i]);
      count := count[b[i] := Count(count, b[i]) - 1];
    }
    assert b[..|b|] == b;
    WithinAndSameSize(b, a);
    return true;
  }

  lemma WithinAndSameSize(a: seq<Pattern>, b: seq<Pattern>)
    requires |a| == |b| && PatternsWithin(a, b)
    ensures SamePatterns(a, b)
  {
    var rest := multiset(b) - multiset(a);
    assert multiset(b) == multiset(a) + rest;
    assert |multiset(a)| == |a| && |multiset(b)| == |b|;
    assert |rest| == 0;
  }

  lemma WithinIsShorter(want: seq<Pattern>, have: seq<Pattern>)
    ensures PatternsWithin(want, have) ==> |want| <= |have|
  {
    if PatternsWithin(want, have) {
      assert multiset(have) == multiset(want) + (multiset(have) - multiset(want));
      assert |multiset(want)| == |want| && |multiset(have)| == |have|;
    }
  }

  /** The verify stage's containment. */
  method PatternsSubset(want: seq<Pattern>, have: seq<Pattern>) returns (within: bool)
    ensures within == PatternsWithin(want, have)
  {
    if |want| > |have| {
      WithinIsShorter(want, have);
      return false;
    }
    var counts := CountPatterns(have);
    for i := 0 to |want|
      invariant CountsLeft(counts, multiset(have), multiset(want[..i]))
    {
      TakeOne(want, i);
      CountDown(counts, multiset(have), multiset(want[..i]), want[i]);
      counts := counts[want[i] := Count(counts, want[i]) - 1];
      if counts[want[i]] < 0 {
        PrefixWithin(want, i + 1);
        assert multiset(want)[want[i]] > multiset(have)[want[i]];
        return false;
      }
    }
    assert want[..|want|] == want;
    return true;
  }

  /** The three comparisons agree: equality implies containment, and at equal lengths they coincide. */
  lemma ComparisonsAgree(a: seq<Pattern>, b: seq<Pattern>)
    ensures SamePatterns(a, b) ==> PatternsWithin(a, b) && |a| == |b|
    ensures |a| == |b| ==> (PatternsWithin(a, b) <==> SamePatterns(a, b))
  {
    assert |multiset(a)| == |a| && |multiset(b)| == |b|;
    if |a| == |b| && PatternsWithin(a, b) { WithinAndSameSize(a, b); }
  }

  // ---------------------------------------------------------------------------
  // Reconciliation with the bindings that already exist

  datatype ExistingMatch = NoMatch | Equivalent | SameRoleOtherResources

  predicate SameRole(e: Binding, b: Binding) {
    e.principal == b.principal && e.role == b.role && e.scope == b.scope
  }

  /** The class of a proposed binding, stated without an order on the inventory. */
  function ExistingClass(b: Binding, existing: seq<Binding>): ExistingMatch {
    if exists e | e in existing :: SameRole(e, b) && SamePatterns(e.patterns, b.patterns) then Equivalent
    else if exists e | e in existing :: SameRole(e, b) then SameRoleOtherResources
    else NoMatch
  }

  method ClassifyAgainstExisting(b: Binding, existing: seq<Binding>) returns (m: ExistingMatch, at: Option<nat>)
    ensures m == ExistingClass(b, existing)
    ensures m == NoMatch <==> at == None
    ensures at.Some? ==> at.value < |existing| && SameRole(existing[at.value], b)
    ensures m == Equivalent ==> SamePatterns(existing[at.value].patterns, b.patterns)
  {
    var conflict: Option<nat> := None;
    for i := 0 to |existing|
      invariant forall j :: 0 <= j < i && SameRole(existing[j], b) ==> conflict.Some? && !SamePatterns(existing[j].patterns, b.patterns)
      invariant conflict.Some? ==> conflict.value < i && SameRole(existing[conflict.value], b)
    {
      var e := existing[i];
      if SameRole(e, b) {
        var equal := PatternsEqualBySorting(e.patterns, b.patterns);
        if equal { return Equivalent, Some(i); }
        if conflict == None { conflict := Some(i); }
      }
    }
    if conflict != None {
      return SameRoleOtherResources, conflict;
    }
    return NoMatch, None;
  }

  /** The inventory comes back from MDS in no fixed order; the class does not depend on it. */
  lemma ClassIgnoresInventoryOrder(b: Binding, s: seq<Binding>, t: seq<Binding>)
    requires multiset(s) == multiset(t)
    ensures ExistingClass(b, s) == ExistingClass(b, t)
  {
    MemberOfPermutation(s, t);
  }
}
