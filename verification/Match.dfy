/** Rule matching and the greedy cover (pkg/aclrbac/plan/match.go). */
module Match {
  import opened Types
  import opened Normalize
  import opened Rules

  predicate MatchesRule(g: AclGroup, r: Rule) {
    && g.key.resourceType == r.when.resourceType
    && g.key.permission == r.when.permission
    && match r.when.mode
       case ModeAll => forall op | op in r.when.operations :: op in g.operations
       case ModeAny => exists op | op in r.when.operations :: op in g.operations
       case OtherMode(_) => false
  }

  /** The operations a rule's role accounts for: those it lists and what they imply, or, for a rule
      that lists `All`, everything the group holds (and what was listed before `All`). */
  function RuleCoveredOps(g: AclGroup, r: Rule): set<Operation> { CoveredFrom(g, r.when.operations) }

  function CoveredFrom(g: AclGroup, ops: seq<Operation>): set<Operation> {
    if ops == [] then {}
    else if ops[0] == All then g.operations
    else {ops[0]} + ImpliedOps(ops[0]) + CoveredFrom(g, ops[1..])
  }

  method ComputeCoveredOps(g: AclGroup, r: Rule) returns (covered: set<Operation>)
    ensures covered == RuleCoveredOps(g, r)
  {
    covered := {};
    var ops := r.when.operations;
    for i := 0 to |ops|
      invariant covered + CoveredFrom(g, ops[i..]) == CoveredFrom(g, ops)
    {
      if ops[i] == All {
        return covered + g.operations;
      }
      covered := covered + {ops[i]} + ImpliedOps(ops[i]);
    }
  }

  /** The concrete operations a group needs covered. */
  function Concrete(g: AclGroup): set<Operation> { g.operations - {All} }

  function Cover(g: AclGroup, rules: seq<Rule>, remaining: set<Operation>): seq<Rule> {
    if rules == [] || remaining == {} then []
    else if MatchesRule(g, rules[0]) && RuleCoveredOps(g, rules[0]) * remaining != {} then
      [rules[0]] + Cover(g, rules[1..], remaining - RuleCoveredOps(g, rules[0]))
    else Cover(g, rules[1..], remaining)
  }

  function CoveringRules(g: AclGroup, rules: seq<Rule>): seq<Rule> { Cover(g, rules, Concrete(g)) }

  method FindCoveringRules(g: AclGroup, rules: seq<Rule>) returns (selected: seq<Rule>)
    ensures selected == CoveringRules(g, rules)
  {
    hide MatchesRule, RuleCoveredOps;
    var remaining := g.operations - {All};
    selected := [];
    var i := 0;
    while i < |rules|
      invariant 0 <= i <= |rules|
      invariant selected + Cover(g, rules[i..], remaining) == CoveringRules(g, rules)
    {
      if remaining == {} { break; }
      if MatchesRule(g, rules[i]) {
        var covered := ComputeCoveredOps(g, rules[i]);
        if exists op :: op in covered && op in remaining {
          ghost var op :| op in covered && op in remaining;
          assert op in covered * remaining;
          selected := selected + [rules[i]];
          remaining := remaining - covered;
        }
      }
      i := i + 1;
    }
  }

  function CoveredBy(g: AclGroup, rules: seq<Rule>): set<Operation> {
    if rules == [] then {} else RuleCoveredOps(g, rules[0]) + CoveredBy(g, rules[1..])
  }

  function Matching(g: AclGroup, rules: seq<Rule>): seq<Rule> {
    if rules == [] then []
    else (if MatchesRule(g, rules[0]) then [rules[0]] else []) + Matching(g, rules[1..])
  }

  ghost predicate Subsequence(a: seq<Rule>, b: seq<Rule>) {
    a == [] || (b != [] && ((a[0] == b[0] && Subsequence(a[1..], b[1..])) || Subsequence(a, b[1..])))
  }

  /** Each selected rule covers an operation no earlier one covers. */
  ghost predicate Irredundant(g: AclGroup, selected: seq<Rule>, needed: set<Operation>) {
    selected == [] ||
    (RuleCoveredOps(g, selected[0]) * needed != {} &&
     Irredundant(g, selected[1..], needed - RuleCoveredOps(g, selected[0])))
  }

  lemma SplitNeeded(covered: set<Operation>, a: set<Operation>, b: set<Operation>, needed: set<Operation>)
    requires a * (needed - covered) == b * (needed - covered)
    ensures (covered + a) * needed == (covered + b) * needed
  {
    forall op | op in needed && op !in covered ensures op in a <==> op in b {
      assert op in a * (needed - covered) <==> op in b * (needed - covered);
    }
  }

  /** The greedy walk keeps priority order, selects nothing useless, and covers as much of what is
      needed as all matching rules together. */
  lemma {:induction false} CoverLosesNothing(g: AclGroup, rules: seq<Rule>, remaining: set<Operation>)
    ensures Subsequence(Cover(g, rules, remaining), Matching(g, rules))
    ensures Irredundant(g, Cover(g, rules, remaining), remaining)
    ensures CoveredBy(g, Cover(g, rules, remaining)) * remaining == CoveredBy(g, Matching(g, rules)) * remaining
  {
    if rules != [] && remaining != {} {
      var covered := RuleCoveredOps(g, rules[0]);
      var m := Matching(g, rules[1..]);
      hide MatchesRule, RuleCoveredOps;
      if MatchesRule(g, rules[0]) {
        assert Matching(g, rules) == [rules[0]] + m && ([rules[0]] + m)[1..] == m;
        if covered * remaining != {} {
          var rest := Cover(g, rules[1..], remaining - covered);
          CoverLosesNothing(g, rules[1..], remaining - covered);
          assert ([rules[0]] + rest)[1..] == rest;
          assert CoveredBy(g, [rules[0]] + rest) == covered + CoveredBy(g, rest);
          assert CoveredBy(g, [rules[0]] + m) == covered + CoveredBy(g, m);
          SplitNeeded(covered, CoveredBy(g, rest), CoveredBy(g, m), remaining);
        } else {
          CoverLosesNothing(g, rules[1..], remaining);
        }
      } else {
        assert Matching(g, rules) == m;
        CoverLosesNothing(g, rules[1..], remaining);
      }
    }
  }

  lemma CoveredFromTouches(g: AclGroup, ops: seq<Operation>, op: Operation)
    requires op in ops && op in g.operations
    ensures op == All ==> g.operations <= CoveredFrom(g, ops)
    ensures op in CoveredFrom(g, ops)
  {
  }

  /** A matching rule lists some operation the group holds. */
  lemma TouchedOp(g: AclGroup, r: Rule) returns (op: Operation)
    requires ValidRule(r) && MatchesRule(g, r)
    ensures op in r.when.operations && op in g.operations
  {
    if r.when.mode == ModeAll {
      op := r.when.operations[0];
    } else {
      op :| op in r.when.operations && op in g.operations;
    }
  }

  lemma MatchingRuleCovers(g: AclGroup, r: Rule)
    requires ValidRule(r) && MatchesRule(g, r) && Concrete(g) != {}
    ensures RuleCoveredOps(g, r) * Concrete(g) != {}
  {
    var op := TouchedOp(g, r);
    CoveredFromTouches(g, r.when.operations, op);
    hide CoveredFrom, MatchesRule, ValidRule;
    var c :| c in Concrete(g);
    var shared := if op == All then c else op;
    assert shared in RuleCoveredOps(g, r) && shared in Concrete(g);
    assert shared in RuleCoveredOps(g, r) * Concrete(g);
  }

  /** With valid rules and something concrete to cover, the selection is empty iff no rule matches. */
  lemma {:induction false} EmptyIffNoMatch(g: AclGroup, rules: seq<Rule>)
    requires ValidRules(rules) && Concrete(g) != {}
    ensures CoveringRules(g, rules) == [] <==> forall r :: r in rules ==> !MatchesRule(g, r)
  {
    if rules != [] {
      assert rules == [rules[0]] + rules[1..];
      if MatchesRule(g, rules[0]) {
        MatchingRuleCovers(g, rules[0]);
      } else {
        hide MatchesRule, RuleCoveredOps, ValidRule;
        EmptyIffNoMatch(g, rules[1..]);
      }
    }
  }

  /** Normalisation always leaves something concrete, so `EmptyIffNoMatch` applies to every group
      the planner looks at. */
  lemma NormalizedHasConcrete(rows: seq<Row>, r: Row)
    requires r in rows
    ensures Concrete(NormalizedGroup(GroupOf(rows, KeyOf(r)))) != {}
  {
    RowInItsGroup(rows, r);
    hide GroupOf;
    NonEmptyHasConcrete(GroupOf(rows, KeyOf(r)), r.operation);
  }

  lemma NonEmptyHasConcrete(g: AclGroup, op: Operation)
    requires op in g.operations
    ensures Concrete(NormalizedGroup(g)) != {}
  {
    var wide := ExpandedAll(g).operations;
    assert (if op == All then Describe else op) in wide;
    assert wide <= NormalizedGroup(g).operations;
    assert (if op == All then Describe else op) in Concrete(NormalizedGroup(g));
  }

  /** Without normalisation it may fail: a bare `All` group has nothing to cover, so no rule is
      selected although one matches. */
  lemma BareAllSelectsNothing()
    ensures exists g, r :: ValidRule(r) && MatchesRule(g, r) && CoveringRules(g, [r]) == []
  {
    var g := AclGroup(Key("User:a", "*", Topic, "t", LITERAL, Allow), {All}, [1]);
    var r := Rule(When([All], ModeAny, Topic, Allow), "ResourceOwner", "kafka-cluster");
    assert ValidRule(r) && MatchesRule(g, r) && Concrete(g) == {};
  }

  lemma {:induction false} SubsequenceMembers(a: seq<Rule>, b: seq<Rule>)
    requires Subsequence(a, b)
    ensures forall r :: r in a ==> r in b
  {
    if a != [] {
      assert b == [b[0]] + b[1..] && a == [a[0]] + a[1..];
      if a[0] == b[0] && Subsequence(a[1..], b[1..]) {
        SubsequenceMembers(a[1..], b[1..]);
      } else {
        SubsequenceMembers(a, b[1..]);
      }
    }
  }

  lemma {:induction false} MatchingMembers(g: AclGroup, rules: seq<Rule>)
    ensures forall r :: r in Matching(g, rules) <==> r in rules && MatchesRule(g, r)
  {
    hide MatchesRule;
    if rules != [] {
      assert rules == [rules[0]] + rules[1..];
      MatchingMembers(g, rules[1..]);
    }
  }

  lemma SelectedRulesMatch(g: AclGroup, rules: seq<Rule>)
    ensures forall r :: r in CoveringRules(g, rules) ==> r in rules && MatchesRule(g, r)
  {
    CoverLosesNothing(g, rules, Concrete(g));
    SubsequenceMembers(CoveringRules(g, rules), Matching(g, rules));
    MatchingMembers(g, rules);
  }

  /** Rule `i` is the first matching one that covers `op`. */
  ghost predicate FirstCovers(g: AclGroup, rules: seq<Rule>, op: Operation, i: nat) {
    && i < |rules| && MatchesRule(g, rules[i]) && op in RuleCoveredOps(g, rules[i])
    && forall j :: 0 <= j < i && MatchesRule(g, rules[j]) ==> op !in RuleCoveredOps(g, rules[j])
  }

  lemma FirstCoversLater(g: AclGroup, rules: seq<Rule>, op: Operation, i: nat)
    requires rules != []
    ensures FirstCovers(g, rules, op, i + 1) <==>
            FirstCovers(g, rules[1..], op, i) && !(MatchesRule(g, rules[0]) && op in RuleCoveredOps(g, rules[0]))
  {
    hide MatchesRule, RuleCoveredOps;
    var rest := rules[1..];
    if FirstCovers(g, rules, op, i + 1) {
      forall j | 0 <= j < i && MatchesRule(g, rest[j]) ensures op !in RuleCoveredOps(g, rest[j]) { assert rest[j] == rules[j + 1]; }
    }
    if FirstCovers(g, rest, op, i) && !(MatchesRule(g, rules[0]) && op in RuleCoveredOps(g, rules[0])) {
      forall j | 0 <= j < i + 1 && MatchesRule(g, rules[j]) ensures op !in RuleCoveredOps(g, rules[j]) {
        if j > 0 { assert rules[j] == rest[j - 1]; }
      }
    }
  }

  /** The greedy walk selects a rule iff it is the first matching one to cover some needed operation. */
  lemma {:induction false} CoverPicksFirst(g: AclGroup, rules: seq<Rule>, needed: set<Operation>, r: Rule)
    ensures r in Cover(g, rules, needed) <==> exists i: nat, op :: op in needed && FirstCovers(g, rules, op, i) && rules[i] == r
  {
    hide MatchesRule, RuleCoveredOps;
    if rules != [] && needed != {} {
      var rest, covered := rules[1..], RuleCoveredOps(g, rules[0]);
      var left := if MatchesRule(g, rules[0]) && covered * needed != {} then needed - covered else needed;
      CoverPicksFirst(g, rest, left, r);
      if r in Cover(g, rest, left) {
        var i: nat, op :| op in left && FirstCovers(g, rest, op, i) && rest[i] == r;
        FirstCoversLater(g, rules, op, i);
        assert op in needed && (op in covered ==> op in covered * needed);
        assert FirstCovers(g, rules, op, i + 1);
      } else if r in Cover(g, rules, needed) {
        var op :| op in covered * needed;
        assert FirstCovers(g, rules, op, 0);
      }
      if i: nat, op :| op in needed && FirstCovers(g, rules, op, i) && rules[i] == r {
        if i == 0 {
          assert op in covered * needed;
        } else {
          FirstCoversLater(g, rules, op, i - 1);
          assert op in left && rest[i - 1] == r;
        }
      }
    }
  }

  lemma {:induction false} CoveredByMember(g: AclGroup, rules: seq<Rule>, op: Operation)
    ensures op in CoveredBy(g, rules) <==> exists r :: r in rules && op in RuleCoveredOps(g, r)
  {
    hide RuleCoveredOps;
    if rules != [] {
      assert rules == [rules[0]] + rules[1..];
      CoveredByMember(g, rules[1..], op);
    }
  }
}
