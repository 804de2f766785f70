/** Mapping rules and their merge (pkg/aclrbac/config/rules.go). */
module Rules {
  import opened Ordering
  import opened Types

  datatype Mode = ModeAll | ModeAny | OtherMode(text: string)

  datatype When = When(operations: seq<Operation>, mode: Mode, resourceType: ResourceType, permission: Permission)

  datatype Rule = Rule(when: When, role: string, scopeTemplate: string)

  /** What `validateRule` accepts. */
  predicate ValidRule(r: Rule) {
    && |r.when.operations| > 0
    && (forall op | op in r.when.operations :: !op.OtherOp?)
    && !r.when.mode.OtherMode?
    && r.role != ""
  }

  predicate ValidRules(rules: seq<Rule>) { forall r | r in rules :: ValidRule(r) }

  function ModeText(m: Mode): string {
    match m case ModeAll => "all" case ModeAny => "any" case OtherMode(t) => t
  }

  function OpTexts(ops: seq<Operation>): seq<string> {
    if ops == [] then [] else [OpText(ops[0])] + OpTexts(ops[1..])
  }

  /** The key of a rule's `when` shape: its operations sorted and joined, then the other fields. */
  function WhenKey(w: When): string {
    Join(Sort(StringLess, OpTexts(w.operations)), ",") + "|" + ModeText(w.mode) + "|" +
    ResourceText(w.resourceType) + "|" + PermissionText(w.permission)
  }

  function KeyOfRule(r: Rule): string { WhenKey(r.when) }

  /** Text before the first separator is unambiguous. */
  lemma SeparatorSplits(sep: char, a: string, b: string, c: string, d: string)
    requires sep !in a && sep !in c && a + [sep] + b == c + [sep] + d
    ensures a == c && b == d
  {
    var s := a + [sep] + b;
    assert s[|a|] == sep && s[|c|] == sep;
    forall i | 0 <= i < |a| ensures s[i] != sep { assert s[i] == a[i]; }
    forall i | 0 <= i < |c| ensures s[i] != sep { assert s[i] == c[i]; }
    assert |a| == |c|;
    assert a == s[..|a|] && c == s[..|a|] && b == s[|a| + 1..] && d == s[|a| + 1..];
  }

  lemma {:induction false} JoinInjective(a: seq<string>, b: seq<string>)
    requires a != [] && b != [] && Join(a, ",") == Join(b, ",")
    requires (forall t :: t in a ==> ',' !in t) && (forall t :: t in b ==> ',' !in t)
    ensures a == b
  {
    assert a == [a[0]] + a[1..] && b == [b[0]] + b[1..];
    assert |a| > 1 ==> ',' in Join(a, ",") by { if |a| > 1 { assert Join(a, ",")[|a[0]|] == ','; } }
    assert |b| > 1 ==> ',' in Join(b, ",") by { if |b| > 1 { assert Join(b, ",")[|b[0]|] == ','; } }
    if |a| > 1 && |b| > 1 {
      SeparatorSplits(',', a[0], Join(a[1..], ","), b[0], Join(b[1..], ","));
      JoinInjective(a[1..], b[1..]);
    }
  }

  lemma {:induction false} JoinAvoids(a: seq<string>)
    requires forall t :: t in a ==> '|' !in t
    ensures '|' !in Join(a, ",")
  {
    if |a| > 1 { JoinAvoids(a[1..]); }
  }

  lemma OpTextPlain(op: Operation)
    requires !op.OtherOp?
    ensures ',' !in OpText(op) && '|' !in OpText(op)
  {
  }

  lemma {:induction false} OpTextsPlain(ops: seq<Operation>)
    requires forall op :: op in ops ==> !op.OtherOp?
    ensures |OpTexts(ops)| == |ops| && forall t :: t in OpTexts(ops) ==> ',' !in t && '|' !in t
  {
    if ops != [] {
      assert ops == [ops[0]] + ops[1..];
      OpTextPlain(ops[0]);
      hide OpText;
      OpTextsPlain(ops[1..]);
    }
  }

  ghost predicate SameShape(a: When, b: When) {
    multiset(OpTexts(a.operations)) == multiset(OpTexts(b.operations))
    && a.mode == b.mode && a.resourceType == b.resourceType && a.permission == b.permission
  }

  predicate PlainWhen(w: When) {
    |w.operations| > 0 && (forall op | op in w.operations :: !op.OtherOp?) && !w.mode.OtherMode?
  }

  lemma SortedOpTexts(w: When)
    requires PlainWhen(w)
    ensures var ts := Sort(StringLess, OpTexts(w.operations));
            ts != [] && '|' !in Join(ts, ",") && forall t :: t in ts ==> ',' !in t
  {
    OpTextsPlain(w.operations);
    var texts := OpTexts(w.operations);
    MemberOfPermutation(Sort(StringLess, texts), texts);
    JoinAvoids(Sort(StringLess, texts));
  }

  lemma TailDetermines(a: When, b: When)
    requires PlainWhen(a) && PlainWhen(b)
    requires ModeText(a.mode) + "|" + (ResourceText(a.resourceType) + "|" + PermissionText(a.permission)) ==
             ModeText(b.mode) + "|" + (ResourceText(b.resourceType) + "|" + PermissionText(b.permission))
    ensures a.mode == b.mode && a.resourceType == b.resourceType && a.permission == b.permission
  {
    assert forall m: Mode :: !m.OtherMode? ==> '|' !in ModeText(m);
    assert forall rt: ResourceType :: '|' !in ResourceText(rt);
    SeparatorSplits('|', ModeText(a.mode), ResourceText(a.resourceType) + "|" + PermissionText(a.permission),
                    ModeText(b.mode), ResourceText(b.resourceType) + "|" + PermissionText(b.permission));
    SeparatorSplits('|', ResourceText(a.resourceType), PermissionText(a.permission), ResourceText(b.resourceType), PermissionText(b.permission));
    TextsInjective(a.resourceType, b.resourceType);
    assert ModeText(a.mode)[1] == ModeText(b.mode)[1];
  }

  lemma KeyParts(w: When)
    ensures WhenKey(w) == Join(Sort(StringLess, OpTexts(w.operations)), ",") + "|" +
                          (ModeText(w.mode) + "|" + (ResourceText(w.resourceType) + "|" + PermissionText(w.permission)))
  {
    var a, m, rt, p := Join(Sort(StringLess, OpTexts(w.operations)), ","), ModeText(w.mode), ResourceText(w.resourceType), PermissionText(w.permission);
    assert a + "|" + m + "|" + rt + "|" + p == a + "|" + (m + "|" + (rt + "|" + p));
  }

  /** The key is canonical: two valid rules share it iff they list the same operations, in whatever
      order, and agree on mode, resource type and permission. */
  lemma KeyIsCanonical(a: When, b: When)
    requires PlainWhen(a) && PlainWhen(b)
    ensures WhenKey(a) == WhenKey(b) <==> SameShape(a, b)
  {
    var s, t := OpTexts(a.operations), OpTexts(b.operations);
    KeyParts(a);
    KeyParts(b);
    SortedOpTexts(a);
    SortedOpTexts(b);
    FieldsLessIsOrder();
    hide WhenKey, OpTexts, ModeText, ResourceText, PermissionText, StringLess;
    if WhenKey(a) == WhenKey(b) {
      SeparatorSplits('|', Join(Sort(StringLess, s), ","), ModeText(a.mode) + "|" + (ResourceText(a.resourceType) + "|" + PermissionText(a.permission)),
                      Join(Sort(StringLess, t), ","), ModeText(b.mode) + "|" + (ResourceText(b.resourceType) + "|" + PermissionText(b.permission)));
      TailDetermines(a, b);
      JoinInjective(Sort(StringLess, s), Sort(StringLess, t));
      assert multiset(s) == multiset(Sort(StringLess, s)) == multiset(t);
    }
    if SameShape(a, b) { SortIgnoresOrder(StringLess, s, t); }
  }

  /** The last position holding a key, or -1. */
  function LastIndex<R, K(==)>(key: R -> K, rules: seq<R>, k: K): (i: int)
    ensures -1 <= i < |rules|
    ensures i >= 0 ==> key(rules[i]) == k
    ensures forall j :: i < j < |rules| ==> key(rules[j]) != k
  {
    if rules == [] then -1
    else if key(rules[|rules| - 1]) == k then |rules| - 1
    else LastIndex(key, rules[..|rules| - 1], k)
  }

  /** Rules of `overrides` whose key no default and no earlier override has. */
  function FirstSeen<R, K(==)>(key: R -> K, defaults: seq<R>, overrides: seq<R>): seq<R> {
    if overrides == [] then [] else
      var seen := FirstSeen(key, defaults, overrides[..|overrides| - 1]);
      var r := overrides[|overrides| - 1];
      if LastIndex(key, defaults + seen, key(r)) >= 0 then seen else seen + [r]
  }

  /** The rule that ends up at a position of the merged list. */
  function MergedAt<R, K(==)>(key: R -> K, skeleton: seq<R>, overrides: seq<R>, i: nat): R
    requires i < |skeleton|
  {
    var k := key(skeleton[i]);
    if LastIndex(key, skeleton, k) == i && LastIndex(key, overrides, k) >= 0 then overrides[LastIndex(key, overrides, k)]
    else skeleton[i]
  }

  /** The merged list: every default keeps its position and new keys follow in first-seen order;
      the last rule holding an overridden key gives way to the last override of that key. */
  function Merged<R, K(==)>(key: R -> K, defaults: seq<R>, overrides: seq<R>): seq<R> {
    var skeleton := defaults + FirstSeen(key, defaults, overrides);
    seq(|skeleton|, i requires 0 <= i < |skeleton| => MergedAt(key, skeleton, overrides, i))
  }

  lemma LastIndexUnique<R, K>(key: R -> K, rules: seq<R>, k: K, i: int)
    requires -1 <= i < |rules|
    requires i >= 0 ==> key(rules[i]) == k
    requires forall j :: i < j < |rules| ==> key(rules[j]) != k
    ensures LastIndex(key, rules, k) == i
  {
  }

  lemma MergedKeys<R, K>(key: R -> K, defaults: seq<R>, overrides: seq<R>)
    ensures var s := defaults + FirstSeen(key, defaults, overrides); var m := Merged(key, defaults, overrides);
            |m| == |s| && forall i :: 0 <= i < |m| ==> key(m[i]) == key(s[i])
    ensures forall k: K :: LastIndex(key, Merged(key, defaults, overrides), k)
                     == LastIndex(key, defaults + FirstSeen(key, defaults, overrides), k)
  {
  }

  /** One more override: the step of the second loop. */
  lemma MergedStep<R, K>(key: R -> K, defaults: seq<R>, overrides: seq<R>, r: R)
    ensures var m := Merged(key, defaults, overrides);
            var i := LastIndex(key, m, key(r));
            Merged(key, defaults, overrides + [r]) == if i >= 0 then m[i := r] else m + [r]
  {
    var o := overrides + [r];
    assert o[..|o| - 1] == overrides;
    var s, s' := defaults + FirstSeen(key, defaults, overrides), defaults + FirstSeen(key, defaults, o);
    var m, m' := Merged(key, defaults, overrides), Merged(key, defaults, o);
    MergedKeys(key, defaults, overrides);
    var k, i := key(r), LastIndex(key, m, key(r));
    forall x: K ensures LastIndex(key, o, x) == if x == k then |overrides| else LastIndex(key, overrides, x) {
      LastIndexUnique(key, o, x, if x == k then |overrides| else LastIndex(key, overrides, x));
    }
    if i < 0 {
      assert s' == s + [r];
      forall x: K ensures LastIndex(key, s', x) == if x == k then |s| else LastIndex(key, s, x) {
        LastIndexUnique(key, s', x, if x == k then |s| else LastIndex(key, s, x));
      }
    }
    forall j | 0 <= j < |m'| ensures m'[j] == (if i >= 0 then m[i := r] else m + [r])[j] {
      assert m'[j] == MergedAt(key, s', o, j);
      if j < |s| { assert m[j] == MergedAt(key, s, overrides, j); }
    }
  }

  /** The index map of the merge: for each key, the last position that holds it. */
  ghost predicate Indexed<R, K(!new)>(key: R -> K, out: seq<R>, index: map<K, int>) {
    forall k: K :: LastIndex(key, out, k) == (if k in index then index[k] else -1) && (k in index ==> index[k] >= 0)
  }

  lemma IndexedEmpty<R, K(!new)>(key: R -> K)
    ensures Indexed(key, [], map[])
  {
  }

  lemma IndexedAppend<R, K(!new)>(key: R -> K, out: seq<R>, index: map<K, int>, r: R)
    requires Indexed(key, out, index)
    ensures Indexed(key, out + [r], index[key(r) := |out|])
  {
    assert (out + [r])[..|out|] == out;
  }

  lemma IndexedReplace<R, K(!new)>(key: R -> K, out: seq<R>, index: map<K, int>, r: R)
    requires Indexed(key, out, index) && key(r) in index
    ensures 0 <= index[key(r)] < |out|
    ensures Indexed(key, out[index[key(r)] := r], index)
  {
    assert LastIndex(key, out, key(r)) == index[key(r)];
    forall k: K ensures LastIndex(key, out[index[key(r)] := r], k) == LastIndex(key, out, k) {
      LastIndexUnique(key, out[index[key(r)] := r], k, LastIndex(key, out, k));
    }
  }

  /** One turn of the second loop. */
  lemma MergeOne<R, K(!new)>(key: R -> K, defaults: seq<R>, done: seq<R>, out: seq<R>, index: map<K, int>, r: R)
    requires out == Merged(key, defaults, done) && Indexed(key, out, index)
    ensures key(r) in index ==>
              0 <= index[key(r)] < |out| && out[index[key(r)] := r] == Merged(key, defaults, done + [r])
              && Indexed(key, out[index[key(r)] := r], index)
    ensures key(r) !in index ==>
              out + [r] == Merged(key, defaults, done + [r]) && Indexed(key, out + [r], index[key(r) := |out|])
  {
    MergedStep(key, defaults, done, r);
    IndexOf(key, out, index, key(r));
    hide Merged;
    if key(r) in index { IndexedReplace(key, out, index, r); } else { IndexedAppend(key, out, index, r); }
  }

  /** The first loop: the index of the copied defaults. */
  method IndexDefaults(defaults: seq<Rule>) returns (indexByKey: map<string, int>)
    ensures Indexed(KeyOfRule, defaults, indexByKey)
  {
    hide *;
    indexByKey := map[];
    IndexedEmpty(KeyOfRule);
    for n := 0 to |defaults|
      invariant Indexed(KeyOfRule, defaults[..n], indexByKey)
    {
      IndexedAppend(KeyOfRule, defaults[..n], indexByKey, defaults[n]);
      assert defaults[..n] + [defaults[n]] == defaults[..n + 1];
      indexByKey := indexByKey[KeyOfRule(defaults[n]) := n];
    }
    assert defaults[..|defaults|] == defaults;
  }

  method MergeRules(defaults: seq<Rule>, overrides: seq<Rule>) returns (out: seq<Rule>)
    ensures out == Merged(KeyOfRule, defaults, overrides)
  {
    var indexByKey := IndexDefaults(defaults);
    hide *;
    out := defaults;
    NoOverrides(KeyOfRule, defaults);
    for n := 0 to |overrides|
      invariant out == Merged(KeyOfRule, defaults, overrides[..n]) && Indexed(KeyOfRule, out, indexByKey)
    {
      var r := overrides[n];
      var k := KeyOfRule(r);
      MergeOne(KeyOfRule, defaults, overrides[..n], out, indexByKey, r);
      assert overrides[..n] + [r] == overrides[..n + 1];
      if k in indexByKey {
        out := out[indexByKey[k] := r];
      } else {
        indexByKey := indexByKey[k := |out|];
        out := out + [r];
      }
    }
    assert overrides[..|overrides|] == overrides;
  }

  lemma IndexOf<R, K(!new)>(key: R -> K, out: seq<R>, index: map<K, int>, k: K)
    requires Indexed(key, out, index)
    ensures LastIndex(key, out, k) == if k in index then index[k] else -1
  {
  }

  /** Merging keeps every default's position, and a rule no override shares its key with. */
  lemma MergeKeepsDefaults<R, K>(key: R -> K, defaults: seq<R>, overrides: seq<R>, i: nat)
    requires i < |defaults|
    ensures var m := Merged(key, defaults, overrides);
            i < |m| && key(m[i]) == key(defaults[i]) &&
            (m[i] == defaults[i] || (m[i] in overrides && LastIndex(key, m, key(m[i])) == i))
    ensures LastIndex(key, overrides, key(defaults[i])) == -1 ==> Merged(key, defaults, overrides)[i] == defaults[i]
  {
    MergedKeys(key, defaults, overrides);
    assert Merged(key, defaults, overrides)[i] == MergedAt(key, defaults + FirstSeen(key, defaults, overrides), overrides, i);
  }

  /** The last override of a key wins. */
  lemma LastOverrideWins<R, K>(key: R -> K, defaults: seq<R>, overrides: seq<R>, r: R)
    requires r in overrides
    ensures var m := Merged(key, defaults, overrides);
            var i := LastIndex(key, m, key(r));
            0 <= LastIndex(key, overrides, key(r)) && 0 <= i && m[i] == overrides[LastIndex(key, overrides, key(r))]
  {
    var s, m := defaults + FirstSeen(key, defaults, overrides), Merged(key, defaults, overrides);
    MergedKeys(key, defaults, overrides);
    EveryOverridePlaced(key, defaults, overrides, r);
    assert m[LastIndex(key, m, key(r))] == MergedAt(key, s, overrides, LastIndex(key, m, key(r)));
  }

  /** What is appended: overrides whose key no default has, one per key. */
  lemma AppendedAreNew<R, K>(key: R -> K, defaults: seq<R>, overrides: seq<R>, i: nat)
    requires |defaults| <= i < |Merged(key, defaults, overrides)|
    ensures var m := Merged(key, defaults, overrides);
            LastIndex(key, defaults, key(m[i])) == -1 && forall j :: |defaults| <= j < |m| && j != i ==> key(m[j]) != key(m[i])
  {
    MergedKeys(key, defaults, overrides);
    FirstSeenFresh(key, defaults, overrides);
  }

  /** The first position holding a key, or -1. */
  function FirstIndex<R, K(==)>(key: R -> K, rules: seq<R>, k: K): (i: int)
    ensures -1 <= i < |rules|
    ensures i >= 0 ==> key(rules[i]) == k
    ensures forall j :: 0 <= j < |rules| && key(rules[j]) == k ==> 0 <= i <= j
  {
    if rules == [] then -1
    else if key(rules[0]) == k then 0
    else
      var i := FirstIndex(key, rules[1..], k);
      if i < 0 then -1 else i + 1
  }

  lemma FirstIndexAppend<R, K(!new)>(key: R -> K, rules: seq<R>, r: R)
    ensures forall k: K :: FirstIndex(key, rules + [r], k) ==
                     (if FirstIndex(key, rules, k) >= 0 then FirstIndex(key, rules, k) else if k == key(r) then |rules| else -1)
  {
    var all := rules + [r];
    forall k: K ensures FirstIndex(key, all, k) ==
                     (if FirstIndex(key, rules, k) >= 0 then FirstIndex(key, rules, k) else if k == key(r) then |rules| else -1) {
      var i := FirstIndex(key, rules, k);
      if i >= 0 { assert key(all[i]) == k; }
      if k == key(r) { assert key(all[|rules|]) == k; }
    }
  }

  /** The keys of `f` first occur among `overrides` in the order of `f`. */
  ghost predicate InFirstSeenOrder<R, K>(key: R -> K, overrides: seq<R>, f: seq<R>) {
    && (forall i :: 0 <= i < |f| ==> FirstIndex(key, overrides, key(f[i])) >= 0)
    && (forall i, j :: 0 <= i < j < |f| ==> FirstIndex(key, overrides, key(f[i])) < FirstIndex(key, overrides, key(f[j])))
  }

  ghost predicate Holds<R, K>(key: R -> K, f: seq<R>, k: K) { exists i :: 0 <= i < |f| && key(f[i]) == k }

  /** Each override whose key no default has is appended, in the order in which the keys first occur
      among the overrides. */
  lemma AppendedInOrder<R, K(!new)>(key: R -> K, defaults: seq<R>, overrides: seq<R>)
    ensures |defaults| <= |Merged(key, defaults, overrides)|
    ensures var appended := Merged(key, defaults, overrides)[|defaults|..];
            InFirstSeenOrder(key, overrides, appended)
            && forall r :: r in overrides && LastIndex(key, defaults, key(r)) < 0 ==> Holds(key, appended, key(r))
  {
    var m, f := Merged(key, defaults, overrides), FirstSeen(key, defaults, overrides);
    MergedKeys(key, defaults, overrides);
    FirstSeenInOrder(key, defaults, overrides);
    hide Merged, FirstSeen, FirstIndex, LastIndex;
    var appended := m[|defaults|..];
    assert forall i :: 0 <= i < |f| ==> key(appended[i]) == key(f[i]);
    forall r | r in overrides && LastIndex(key, defaults, key(r)) < 0 ensures Holds(key, appended, key(r)) {
      var n :| 0 <= n < |f| && key(f[n]) == key(r);
      assert key(appended[n]) == key(r);
    }
  }

  lemma {:induction false} FirstSeenInOrder<R, K(!new)>(key: R -> K, defaults: seq<R>, overrides: seq<R>)
    ensures InFirstSeenOrder(key, overrides, FirstSeen(key, defaults, overrides))
    ensures forall r :: r in overrides && LastIndex(key, defaults, key(r)) < 0 ==>
              Holds(key, FirstSeen(key, defaults, overrides), key(r))
  {
    if overrides != [] {
      var init, r := overrides[..|overrides| - 1], overrides[|overrides| - 1];
      assert overrides == init + [r];
      FirstSeenInOrder(key, defaults, init);
      var seen := FirstSeen(key, defaults, init);
      assert FirstSeen(key, defaults, overrides) == if LastIndex(key, defaults + seen, key(r)) >= 0 then seen else seen + [r];
      hide FirstSeen, InFirstSeenOrder, Holds;
      OneMoreInOrder(key, defaults, init, seen, r);
      OneMoreHeld(key, defaults, init, seen, r);
    }
  }

  lemma OneMoreHeld<R, K>(key: R -> K, defaults: seq<R>, init: seq<R>, seen: seq<R>, r: R)
    requires forall x :: x in init && LastIndex(key, defaults, key(x)) < 0 ==> Holds(key, seen, key(x))
    ensures var f := if LastIndex(key, defaults + seen, key(r)) >= 0 then seen else seen + [r];
            forall x :: x in init + [r] && LastIndex(key, defaults, key(x)) < 0 ==> Holds(key, f, key(x))
  {
    var at := LastIndex(key, defaults + seen, key(r));
    var f := if at >= 0 then seen else seen + [r];
    LastIndexPrefix(key, defaults, seen, key(r));
    forall x | x in init + [r] && LastIndex(key, defaults, key(x)) < 0 ensures Holds(key, f, key(x)) {
      if x in init {
        var i :| 0 <= i < |seen| && key(seen[i]) == key(x);
        assert key(f[i]) == key(x);
      } else if at >= 0 {
        assert key(seen[at - |defaults|]) == key(r);
      } else {
        assert key(f[|seen|]) == key(r);
      }
    }
  }

  /** A key that neither the defaults nor `seen` hold has not occurred yet. */
  lemma NotYetSeen<R, K>(key: R -> K, defaults: seq<R>, init: seq<R>, seen: seq<R>, k: K)
    requires forall x :: x in init && LastIndex(key, defaults, key(x)) < 0 ==> Holds(key, seen, key(x))
    ensures LastIndex(key, defaults + seen, k) < 0 ==> FirstIndex(key, init, k) < 0
  {
    LastIndexPrefix(key, defaults, seen, k);
    var first, at := FirstIndex(key, init, k), LastIndex(key, defaults + seen, k);
    forall i | 0 <= i < |seen| && at < 0 ensures key(seen[i]) != k { assert (defaults + seen)[|defaults| + i] == seen[i]; }
    assert first >= 0 ==> init[first] in init;
  }

  lemma OneMoreInOrder<R, K(!new)>(key: R -> K, defaults: seq<R>, init: seq<R>, seen: seq<R>, r: R)
    requires InFirstSeenOrder(key, init, seen)
    requires forall x :: x in init && LastIndex(key, defaults, key(x)) < 0 ==> Holds(key, seen, key(x))
    ensures InFirstSeenOrder(key, init + [r], if LastIndex(key, defaults + seen, key(r)) >= 0 then seen else seen + [r])
  {
    NotYetSeen(key, defaults, init, seen, key(r));
    KeepsOrder(key, init, seen, r);
    if LastIndex(key, defaults + seen, key(r)) < 0 { AppendsInOrder(key, init, seen, r); }
  }

  lemma KeepsOrder<R, K(!new)>(key: R -> K, init: seq<R>, seen: seq<R>, r: R)
    requires InFirstSeenOrder(key, init, seen)
    ensures InFirstSeenOrder(key, init + [r], seen)
    ensures forall i :: 0 <= i < |seen| ==> FirstIndex(key, init + [r], key(seen[i])) < |init|
  {
    hide FirstIndex;
    FirstIndexAppend(key, init, r);
  }

  lemma AppendsInOrder<R, K(!new)>(key: R -> K, init: seq<R>, seen: seq<R>, r: R)
    requires InFirstSeenOrder(key, init, seen) && FirstIndex(key, init, key(r)) < 0
    ensures InFirstSeenOrder(key, init + [r], seen + [r])
  {
    hide FirstIndex;
    KeepsOrder(key, init, seen, r);
    FirstIndexAppend(key, init, r);
    var f := seen + [r];
    assert FirstIndex(key, init + [r], key(f[|seen|])) == |init|;
    forall i, j | 0 <= i < j < |f| ensures FirstIndex(key, init + [r], key(f[i])) < FirstIndex(key, init + [r], key(f[j])) {
      assert f[i] == seen[i];
    }
  }

  lemma LastIndexPrefix<R, K>(key: R -> K, a: seq<R>, b: seq<R>, k: K)
    ensures LastIndex(key, a + b, k) < 0 ==> LastIndex(key, a, k) < 0
    ensures LastIndex(key, a, k) < 0 && LastIndex(key, a + b, k) >= 0 ==> LastIndex(key, a + b, k) >= |a|
  {
    var i, j := LastIndex(key, a, k), LastIndex(key, a + b, k);
    if i >= 0 { assert key((a + b)[i]) == k; }
    if 0 <= j < |a| { assert key(a[j]) == k; }
  }

  lemma {:induction false} FirstSeenFresh<R, K>(key: R -> K, defaults: seq<R>, overrides: seq<R>)
    ensures var f := FirstSeen(key, defaults, overrides);
            && (forall x :: x in f ==> x in overrides && LastIndex(key, defaults, key(x)) == -1)
            && (forall i, j :: 0 <= i < j < |f| ==> key(f[i]) != key(f[j]))
  {
    if overrides != [] {
      var init, r := overrides[..|overrides| - 1], overrides[|overrides| - 1];
      assert overrides == init + [r];
      FirstSeenFresh(key, defaults, init);
      var seen := FirstSeen(key, defaults, init);
      if LastIndex(key, defaults + seen, key(r)) < 0 {
        forall j | 0 <= j < |seen| ensures seen[j] in overrides && key(seen[j]) != key(r) {
          assert seen[j] in init;
          assert (defaults + seen)[|defaults| + j] == seen[j];
        }
        forall j | 0 <= j < |defaults| ensures key(defaults[j]) != key(r) { assert (defaults + seen)[j] == defaults[j]; }
        LastIndexUnique(key, defaults, key(r), -1);
        assert FirstSeen(key, defaults, overrides) == seen + [r];
      }
    }
  }

  /** An empty override list is the identity. */
  lemma NoOverrides<R, K>(key: R -> K, defaults: seq<R>)
    ensures Merged(key, defaults, []) == defaults
  {
    var m := Merged(key, defaults, []);
    assert defaults + FirstSeen(key, defaults, []) == defaults;
    forall i | 0 <= i < |m| ensures m[i] == defaults[i] { assert m[i] == MergedAt(key, defaults, [], i); }
  }

  lemma {:induction false} NothingNew<R, K>(key: R -> K, defaults: seq<R>, overrides: seq<R>)
    requires forall r :: r in overrides ==> LastIndex(key, defaults, key(r)) >= 0
    ensures FirstSeen(key, defaults, overrides) == []
  {
    if overrides != [] {
      NothingNew(key, defaults, overrides[..|overrides| - 1]);
      assert defaults + [] == defaults;
      assert overrides[|overrides| - 1] in overrides;
    }
  }

  lemma {:induction false} EveryOverridePlaced<R, K>(key: R -> K, defaults: seq<R>, overrides: seq<R>, r: R)
    requires r in overrides
    ensures LastIndex(key, defaults + FirstSeen(key, defaults, overrides), key(r)) >= 0
  {
    var init, last := overrides[..|overrides| - 1], overrides[|overrides| - 1];
    var s, s' := defaults + FirstSeen(key, defaults, init), defaults + FirstSeen(key, defaults, overrides);
    if r != last { 
      assert overrides == init + [last];
      EveryOverridePlaced(key, defaults, init, r);
    }
    var i := LastIndex(key, s, key(r));
    if i >= 0 { assert s'[i] == s[i]; } else { assert s'[|s|] == last; }
  }

  /** Merging the same overrides a second time changes nothing. */
  lemma MergeIsIdempotent<R, K>(key: R -> K, defaults: seq<R>, overrides: seq<R>)
    ensures Merged(key, Merged(key, defaults, overrides), overrides) == Merged(key, defaults, overrides)
  {
    var s, m := defaults + FirstSeen(key, defaults, overrides), Merged(key, defaults, overrides);
    MergedKeys(key, defaults, overrides);
    forall r | r in overrides ensures LastIndex(key, m, key(r)) >= 0 {
      EveryOverridePlaced(key, defaults, overrides, r);
    }
    NothingNew(key, m, overrides);
    assert m + [] == m;
    var mm := Merged(key, m, overrides);
    forall i | 0 <= i < |m| ensures mm[i] == m[i] {
      assert m[i] == MergedAt(key, s, overrides, i) && mm[i] == MergedAt(key, m, overrides, i);
    }
  }
}
