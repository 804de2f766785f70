/** Verification of a plan against the metadata service (pkg/aclrbac/verify). */
module Verify {
  import opened Types
  import opened Patterns
  import opened Mds

  datatype Status =
    | BindingExists | BindingMissing | BindingUnknown
    | EffectiveOk | EffectiveMissing | EffectiveUnknown

  /** A source id of 0 speaks for the whole binding. */
  datatype Verdict = Verdict(bindingId: string, sourceId: int, status: Status)

  const DEFAULT_PARALLELISM: nat := 8
  const MAX_PARALLELISM: nat := 64

  function ClampParallelism(p: int): (r: nat)
    ensures 1 <= r <= MAX_PARALLELISM
    ensures p <= 0 ==> r == 8
    ensures 1 <= p <= MAX_PARALLELISM ==> r == p
  {
    if p <= 0 then DEFAULT_PARALLELISM else if p > MAX_PARALLELISM then MAX_PARALLELISM else p
  }

  /** The order in which `n` workers finish: any order that names each of them. */
  ghost predicate Schedule(order: seq<nat>, n: nat) {
    (forall i :: i in order ==> i < n) && forall i: nat :: i < n ==> i in order
  }

  // ---------------------------------------------------------------------------
  // Mode bindings-exist

  method FindMatching(listed: seq<Binding>, want: Binding) returns (found: bool)
    ensures found == Matched(listed, want)
  {
    for i := 0 to |listed|
      invariant forall e :: e in listed[..i] ==> !(SameRole(e, want) && PatternsWithin(want.patterns, e.patterns))
    {
      var e := listed[i];
      assert listed[..i + 1] == listed[..i] + [e];
      if SameRole(e, want) {
        var within := PatternsSubset(want.patterns, e.patterns);
        if within { return true; }
      }
    }
    assert listed[..|listed|] == listed;
    return false;
  }

  /** `answer` is what listing the binding's principal gave, or nothing if the listing failed. */
  function ExistsVerdict(b: Binding, answer: Option<seq<Binding>>): Verdict {
    Verdict(b.id, 0,
            match answer
            case None => BindingUnknown
            case Some(listed) => if Matched(listed, b) then BindingExists else BindingMissing)
  }

  /** One worker per binding writes its own slot; the order in which they finish leaves no trace. */
  method VerifyBindingsExist(bs: seq<Binding>, answers: seq<Option<seq<Binding>>>, order: seq<nat>) returns (out: array<Verdict>)
    requires |answers| == |bs| && Schedule(order, |bs|)
    ensures |bs| == out.Length && forall i :: 0 <= i < |bs| ==> out[i] == ExistsVerdict(bs[i], answers[i])
  {
    out := new Verdict[|bs|](_ => Verdict("", 0, BindingUnknown));
    for k := 0 to |order|
      invariant forall i :: i in order[..k] ==> i < |bs| && out[i] == ExistsVerdict(bs[i], answers[i])
    {
      var i := order[k];
      assert i in order;
      assert order[..k + 1] == order[..k] + [i];
      match answers[i] {
        case None =>
          out[i] := Verdict(bs[i].id, 0, BindingUnknown);
        case Some(listed) =>
          var found := FindMatching(listed, bs[i]);
          out[i] := Verdict(bs[i].id, 0, if found then BindingExists else BindingMissing);
      }
    }
    assert order[..|order|] == order;
  }

  /** A verdict speaks for its binding as a whole: unknown iff the listing failed, and otherwise found iff
      some listed binding of the principal, role and scope contains the patterns. */
  lemma ExistsVerdictMeans(b: Binding, answer: Option<seq<Binding>>)
    ensures var v := ExistsVerdict(b, answer);
            && v.bindingId == b.id && v.sourceId == 0
            && (v.status == BindingUnknown <==> answer == None)
            && (v.status == BindingExists <==>
                answer.Some? && exists e :: e in answer.value && e.principal == b.principal && e.role == b.role && e.scope == b.scope
                                            && multiset(b.patterns) <= multiset(e.patterns))
            && v.status in {BindingExists, BindingMissing, BindingUnknown}
  {
    if answer.Some? && Matched(answer.value, b) {
      var e :| e in answer.value && SameRole(e, b) && PatternsWithin(b.patterns, e.patterns);
    }
    if answer.Some? {
      if e :| e in answer.value && e.principal == b.principal && e.role == b.role && e.scope == b.scope
              && multiset(b.patterns) <= multiset(e.patterns) {
        assert SameRole(e, b) && PatternsWithin(b.patterns, e.patterns);
      }
    }
  }

  // ---------------------------------------------------------------------------
  // Mode effective

  datatype Task = Task(bindingId: string, principal: string, role: string, scope: Scope, sourceId: int)

  function TasksOfBinding(b: Binding, ids: seq<int>): (ts: seq<Task>)
    ensures |ts| == |ids| && forall i :: 0 <= i < |ts| ==> ts[i] == Task(b.id, b.principal, b.role, b.scope, ids[i])
  {
    if ids == [] then [] else
      TasksOfBinding(b, ids[..|ids| - 1]) + [Task(b.id, b.principal, b.role, b.scope, ids[|ids| - 1])]
  }

  /** One task per binding and source row, binding by binding. */
  function TasksOf(bs: seq<Binding>): seq<Task> {
    if bs == [] then [] else
      TasksOf(bs[..|bs| - 1]) + TasksOfBinding(bs[|bs| - 1], bs[|bs| - 1].sourceIds)
  }

  ghost predicate TaskFor(t: Task, b: Binding) {
    t.bindingId == b.id && t.principal == b.principal && t.role == b.role && t.scope == b.scope && t.sourceId in b.sourceIds
  }

  /** The tasks are exactly the (binding, source row) pairs. */
  lemma {:induction false} TasksAreThePairs(bs: seq<Binding>)
    ensures forall t :: t in TasksOf(bs) ==> exists b :: b in bs && TaskFor(t, b)
    ensures forall b, id :: b in bs && id in b.sourceIds ==> Task(b.id, b.principal, b.role, b.scope, id) in TasksOf(bs)
  {
    if bs != [] {
      var init, last := bs[..|bs| - 1], bs[|bs| - 1];
      assert bs == init + [last];
      TasksAreThePairs(init);
      var ts := TasksOfBinding(last, last.sourceIds);
      forall t | t in ts ensures TaskFor(t, last) {}
      forall id | id in last.sourceIds ensures Task(last.id, last.principal, last.role, last.scope, id) in ts {
        var i :| 0 <= i < |last.sourceIds| && last.sourceIds[i] == id;
        assert ts[i] == Task(last.id, last.principal, last.role, last.scope, id);
      }
    }
  }

  method FlattenTasks(bs: seq<Binding>) returns (tasks: seq<Task>)
    ensures tasks == TasksOf(bs)
  {
    tasks := [];
    for i := 0 to |bs|
      invariant tasks == TasksOf(bs[..i])
    {
      var b := bs[i];
      for j := 0 to |b.sourceIds|
        invariant tasks == TasksOf(bs[..i]) + TasksOfBinding(b, b.sourceIds[..j])
      {
        assert b.sourceIds[..j + 1][..j] == b.sourceIds[..j];
        tasks := tasks + [Task(b.id, b.principal, b.role, b.scope, b.sourceIds[j])];
      }
      assert b.sourceIds[..|b.sourceIds|] == b.sourceIds;
      assert bs[..i + 1][..i] == bs[..i];
    }
    assert bs[..|bs|] == bs;
  }

  /** Operation and resource of each source row, by id; a later row with the same id wins. */
  function OperationsById(rows: seq<Row>): map<int, Operation> {
    if rows == [] then map[] else
      var r := rows[|rows| - 1];
      OperationsById(rows[..|rows| - 1])[r.id := r.operation]
  }

  function ResourcesById(rows: seq<Row>): map<int, Pattern> {
    if rows == [] then map[] else
      var r := rows[|rows| - 1];
      ResourcesById(rows[..|rows| - 1])[r.id := PatternOf(r)]
  }

  method ReadSources(rows: seq<Row>) returns (ops: map<int, Operation>, resources: map<int, Pattern>)
    ensures ops == OperationsById(rows) && resources == ResourcesById(rows)
  {
    ops, resources := map[], map[];
    for i := 0 to |rows|
      invariant ops == OperationsById(rows[..i]) && resources == ResourcesById(rows[..i])
    {
      assert rows[..i + 1][..i] == rows[..i];
      ops, resources := ops[rows[i].id := rows[i].operation], resources[rows[i].id := PatternOf(rows[i])];
    }
    assert rows[..|rows|] == rows;
  }

  lemma {:induction false} SourceOfRow(rows: seq<Row>, r: Row)
    requires DistinctIds(rows) && r in rows
    ensures r.id in OperationsById(rows) && OperationsById(rows)[r.id] == r.operation
    ensures r.id in ResourcesById(rows) && ResourcesById(rows)[r.id] == PatternOf(r)
  {
    var init, last := rows[..|rows| - 1], rows[|rows| - 1];
    assert rows == init + [last];
    if r != last {
      SourceOfRow(init, r);
      var i :| 0 <= i < |init| && init[i] == r;
      assert rows[i].id != last.id;
    }
  }

  /** `answer` is the principal's grants as fetched for this task, or nothing if the lookup failed. */
  function EvalEffective(
    ops: map<int, Operation>, resources: map<int, Pattern>, capable: bool, t: Task, answer: Option<seq<Grant>>): Verdict
  {
    Verdict(t.bindingId, t.sourceId,
            if t.sourceId !in ops || t.sourceId !in resources then EffectiveUnknown
            else if !capable then EffectiveUnknown
            else match answer
              case None => EffectiveUnknown
              case Some(grants) => if LookupAllowed(grants, ops[t.sourceId], resources[t.sourceId]) then EffectiveOk else EffectiveMissing)
  }

  /** `--accept-unknown-verify`: a pass over the finished verdicts. */
  function Accepting(acceptUnknown: bool, v: Verdict): Verdict {
    if acceptUnknown && v.status == EffectiveUnknown then v.(status := EffectiveOk) else v
  }

  lemma NoSource(rows: seq<Row>, id: int)
    ensures id in OperationsById(rows) <==> exists r :: r in rows && r.id == id
    ensures id in ResourcesById(rows) <==> exists r :: r in rows && r.id == id
  {
    if rows != [] {
      var init, last := rows[..|rows| - 1], rows[|rows| - 1];
      assert rows == init + [last];
      NoSource(init, id);
    }
  }

  /** Whether the service was asked, and said yes to the row's own operation and pattern. */
  ghost predicate SaidYes(capable: bool, answer: Option<seq<Grant>>, r: Row) {
    capable && answer.Some? && exists g :: g in answer.value && g.operation == r.operation && Includes(g.pattern, PatternOf(r))
  }

  /** The verdict of a task: about its binding and row; good iff the service said yes, or could not be
      asked and unknowns are accepted, and missing iff it said no. */
  lemma EffectiveVerdictMeans(rows: seq<Row>, t: Task, capable: bool, answer: Option<seq<Grant>>, acceptUnknown: bool, r: Row)
    requires DistinctIds(rows) && r in rows && t.sourceId == r.id
    ensures var v := Accepting(acceptUnknown, EvalEffective(OperationsById(rows), ResourcesById(rows), capable, t, answer));
            && v.bindingId == t.bindingId && v.sourceId == r.id
            && (v.status == EffectiveMissing <==> capable && answer.Some? && !SaidYes(capable, answer, r))
            && (v.status == EffectiveOk <==> SaidYes(capable, answer, r) || (acceptUnknown && !(capable && answer.Some?)))
            && v.status in {EffectiveOk, EffectiveMissing, EffectiveUnknown}
  {
    SourceOfRow(rows, r);
    if answer.Some? { LookupAllowedIff(answer.value, r.operation, PatternOf(r)); }
    hide OperationsById, ResourcesById, LookupAllowed, Includes;
  }

  /** A task whose row is not in the inventory is unknown. */
  lemma StrayVerdictMeans(rows: seq<Row>, t: Task, capable: bool, answer: Option<seq<Grant>>, acceptUnknown: bool)
    requires forall r :: r in rows ==> r.id != t.sourceId
    ensures var v := Accepting(acceptUnknown, EvalEffective(OperationsById(rows), ResourcesById(rows), capable, t, answer));
            v == Verdict(t.bindingId, t.sourceId, if acceptUnknown then EffectiveOk else EffectiveUnknown)
  {
    NoSource(rows, t.sourceId);
    hide OperationsById, ResourcesById, LookupAllowed;
  }

  ghost predicate IsVerdict(
    rows: seq<Row>, tasks: seq<Task>, capable: bool, answers: seq<Option<seq<Grant>>>, acceptUnknown: bool, v: Verdict, i: nat)
    requires |answers| == |tasks| && i < |tasks|
  {
    v == Accepting(acceptUnknown, EvalEffective(OperationsById(rows), ResourcesById(rows), capable, tasks[i], answers[i]))
  }

  /** The verdicts of an effective run; `answers` has one reply per task. */
  ghost predicate Verdicts(
    rows: seq<Row>, bs: seq<Binding>, capable: bool, answers: seq<Option<seq<Grant>>>, acceptUnknown: bool, vs: seq<Verdict>)
  {
    && |answers| == |TasksOf(bs)| == |vs|
    && forall i :: 0 <= i < |vs| ==> IsVerdict(rows, TasksOf(bs), capable, answers, acceptUnknown, vs[i], i)
  }

  method VerifyEffective(
    rows: seq<Row>, bs: seq<Binding>, capable: bool, answers: seq<Option<seq<Grant>>>, acceptUnknown: bool, order: seq<nat>)
    returns (out: array<Verdict>)
    requires |answers| == |TasksOf(bs)| && Schedule(order, |answers|)
    ensures Verdicts(rows, bs, capable, answers, acceptUnknown, out[..])
  {
    var ops, resources := ReadSources(rows);
    var tasks := FlattenTasks(bs);
    var n := |tasks|;
    out := new Verdict[n](_ => Verdict("", 0, EffectiveUnknown));
    for k := 0 to |order|
      invariant forall i :: i in order[..k] ==> i < n && out[i] == EvalEffective(ops, resources, capable, tasks[i], answers[i])
    {
      var i := order[k];
      assert i in order;
      assert order[..k + 1] == order[..k] + [i];
      out[i] := EvalEffective(ops, resources, capable, tasks[i], answers[i]);
    }
    assert order[..|order|] == order;
    hide EvalEffective, OperationsById, ResourcesById, TasksOf;
    AcceptUnknowns(out, acceptUnknown);
  }

  /** The pass of `--accept-unknown-verify`, in place. */
  method AcceptUnknowns(out: array<Verdict>, acceptUnknown: bool)
    modifies out
    ensures forall i :: 0 <= i < out.Length ==> out[i] == Accepting(acceptUnknown, old(out[i]))
  {
    for i := 0 to out.Length
      invariant forall j :: 0 <= j < i ==> out[j] == Accepting(acceptUnknown, old(out[j]))
      invariant forall j :: i <= j < out.Length ==> out[j] == old(out[j])
    {
      if acceptUnknown && out[i].status == EffectiveUnknown {
        out[i] := out[i].(status := EffectiveOk);
      }
    }
  }
}
