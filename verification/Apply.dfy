/** The apply worker pool (pkg/aclrbac/apply/apply.go) as interleaved steps over a shared store. */
module Apply {
  import opened Ordering
  import opened Types
  import opened Mds

  datatype Status = StatusCreated | StatusSkipExists | StatusFailed

  const MAX_PARALLELISM: nat := 64

  function Clamp(parallelism: int): (r: nat)
    ensures 1 <= r <= MAX_PARALLELISM
    ensures parallelism <= 0 ==> r == 4
    ensures 1 <= parallelism <= MAX_PARALLELISM ==> r == parallelism
  {
    if parallelism <= 0 then 4 else if parallelism > MAX_PARALLELISM then MAX_PARALLELISM else parallelism
  }

  method FindEqual(listed: seq<Binding>, want: Binding) returns (found: bool)
    ensures found == AlreadyHas(listed, want)
  {
    for i := 0 to |listed|
      invariant forall e :: e in listed[..i] ==> !(Patterns.SameRole(e, want) && Patterns.SamePatterns(e.patterns, want.patterns))
    {
      var e := listed[i];
      assert listed[..i + 1] == listed[..i] + [e];
      if Patterns.SameRole(e, want) {
        var equal := Patterns.PatternsEqualByCounting(e.patterns, want.patterns);
        if equal { return true; }
      }
    }
    assert listed[..|listed|] == listed;
    return false;
  }

  /** A goroutine for one binding: it lists, creates if needed, sends an error if something failed,
      records one result under the mutex and gives its slot back. */
  datatype Worker =
    | Started
    | Listed(present: bool)
    | Failing
    | Deciding(status: Status)
    | Recorded(status: Status)
    | Gone(status: Status)

  /** `next` is the dispatch loop's position, `slots` the length of the semaphore channel, `errors`
      the length of the error channel. */
  datatype State = State(
    store: Store, next: nat, workers: map<nat, Worker>, slots: nat, results: seq<(nat, Status)>, errors: nat)

  datatype Event =
    | SkipPlanned
    | Spawn
    | ListBindings(i: nat, listed: seq<Binding>)
    | ListFails(i: nat)
    | AlreadyThere(i: nat)
    | CreateBinding(i: nat)
    | CreateFails(i: nat, posted: bool)
    | SendError(i: nat)
    | Record(i: nat)
    | Release(i: nat)

  /** `bs` are the plan's bindings, `limit` the clamped parallelism; the error channel's capacity is
      the number of bindings. A failed create may or may not have reached the store. */
  ghost predicate Enabled(bs: seq<Binding>, limit: nat, s: State, e: Event) {
    match e
    case SkipPlanned => s.next < |bs| && bs[s.next].action == SkipExists
    case Spawn => s.next < |bs| && bs[s.next].action != SkipExists && s.slots < limit
    case ListBindings(i, listed) =>
      At(s, i, Started) && i < |bs| && Listing(s.store, bs[i].principal, bs[i].scope, listed)
    case ListFails(i) => At(s, i, Started)
    case AlreadyThere(i) => At(s, i, Listed(true))
    case CreateBinding(i) => At(s, i, Listed(false)) && i < |bs|
    case CreateFails(i, _) => At(s, i, Listed(false)) && i < |bs|
    case SendError(i) => At(s, i, Failing) && s.errors < |bs|
    case Record(i) => i in s.workers && s.workers[i].Deciding?
    case Release(i) => i in s.workers && s.workers[i].Recorded?
  }

  predicate At(s: State, i: nat, w: Worker) { i in s.workers && s.workers[i] == w }

  ghost function After(bs: seq<Binding>, limit: nat, s: State, e: Event): State
    requires Enabled(bs, limit, s, e)
  {
    match e
    case SkipPlanned => s.(next := s.next + 1, results := s.results + [(s.next, StatusSkipExists)])
    case Spawn => s.(next := s.next + 1, slots := s.slots + 1, workers := s.workers[s.next := Started])
    case ListBindings(i, listed) => s.(workers := s.workers[i := Listed(AlreadyHas(listed, bs[i]))])
    case ListFails(i) => s.(workers := s.workers[i := Failing])
    case AlreadyThere(i) => s.(workers := s.workers[i := Deciding(StatusSkipExists)])
    case CreateBinding(i) =>
      s.(workers := s.workers[i := Deciding(StatusCreated)], store := s.store + GrantsOf(bs[i]))
    case CreateFails(i, posted) =>
      s.(workers := s.workers[i := Failing], store := if posted then s.store + GrantsOf(bs[i]) else s.store)
    case SendError(i) => s.(workers := s.workers[i := Deciding(StatusFailed)], errors := s.errors + 1)
    case Record(i) =>
      s.(workers := s.workers[i := Recorded(s.workers[i].status)], results := s.results + [(i, s.workers[i].status)])
    case Release(i) =>
      s.(workers := s.workers[i := Gone(s.workers[i].status)], slots := if s.slots > 0 then s.slots - 1 else 0)
  }

  ghost predicate Initial(s: State) {
    s.next == 0 && s.workers == map[] && s.slots == 0 && s.results == [] && s.errors == 0
  }

  ghost predicate Run(bs: seq<Binding>, limit: nat, states: seq<State>, events: seq<Event>) {
    && |states| == |events| + 1 && Initial(states[0])
    && forall k :: 0 <= k < |events| ==> StepAt(bs, limit, states, events, k)
  }

  ghost predicate StepAt(bs: seq<Binding>, limit: nat, states: seq<State>, events: seq<Event>, k: nat)
    requires k < |events| && |states| == |events| + 1
  {
    Enabled(bs, limit, states[k], events[k]) && states[k + 1] == After(bs, limit, states[k], events[k])
  }

  /** The dispatch loop is done and every worker has left. */
  predicate Finished(bs: seq<Binding>, s: State) {
    s.next == |bs| && forall i | i in s.workers :: s.workers[i].Gone?
  }

  // ---------------------------------------------------------------------------
  // What holds in every run

  predicate Done(w: Worker) { w.Recorded? || w.Gone? }

  predicate Failed(w: Worker) { (w.Deciding? || w.Recorded? || w.Gone?) && w.status == StatusFailed }

  function InFlight(s: State): set<nat> { set i | i in s.workers && !s.workers[i].Gone? }

  function ErrorSenders(s: State): set<nat> { set i | i in s.workers && Failed(s.workers[i]) }

  ghost predicate DispatchInv(bs: seq<Binding>, s: State) {
    && s.next <= |bs|
    && (forall i :: i in s.workers <==> 0 <= i < s.next && bs[i].action != SkipExists)
  }

  ghost predicate SlotsInv(limit: nat, s: State) { s.slots == |InFlight(s)| <= limit }

  ghost predicate ErrorsInv(s: State) { s.errors == |ErrorSenders(s)| }

  /** Each recorded index has exactly one result, with the worker's status. */
  ghost predicate ResultsInv(bs: seq<Binding>, s: State) {
    && (forall k, m :: 0 <= k < m < |s.results| ==> s.results[k].0 != s.results[m].0)
    && (forall r :: r in s.results ==> HasResult(bs, s, r.0) && ResultOf(bs, s, r.0) == r.1)
    && (forall i: nat :: HasResult(bs, s, i) ==> (i, ResultOf(bs, s, i)) in s.results)
  }

  ghost predicate HasResult(bs: seq<Binding>, s: State, i: nat) {
    (i < s.next && i < |bs| && bs[i].action == SkipExists) || (i in s.workers && Done(s.workers[i]))
  }

  ghost function ResultOf(bs: seq<Binding>, s: State, i: nat): Status
    requires HasResult(bs, s, i)
  {
    if i in s.workers && Done(s.workers[i]) then s.workers[i].status else StatusSkipExists
  }

  /** All grants the plan asks the service for. */
  ghost function Wanted(bs: seq<Binding>): Store {
    set i, g | 0 <= i < |bs| && bs[i].action != SkipExists && g in GrantsOf(bs[i]) :: g
  }

  /** A worker that found or created its binding knows the store holds it. */
  predicate Satisfied(w: Worker) {
    match w
    case Listed(present) => present
    case Deciding(st) => st != StatusFailed
    case Recorded(st) => st != StatusFailed
    case Gone(st) => st != StatusFailed
    case _ => false
  }

  ghost predicate StoreInv(bs: seq<Binding>, initial: Store, s: State) {
    && initial <= s.store <= initial + Wanted(bs)
    && forall i :: i in s.workers && i < |bs| && Satisfied(s.workers[i]) ==> GrantsOf(bs[i]) <= s.store
  }

  ghost predicate Inv(bs: seq<Binding>, limit: nat, initial: Store, s: State) {
    DispatchInv(bs, s) && SlotsInv(limit, s) && ErrorsInv(s) && ResultsInv(bs, s) && StoreInv(bs, initial, s)
  }

  /** The worker an event moves, if any. */
  function Moves(s: State, e: Event): nat {
    match e
    case SkipPlanned => s.next
    case Spawn => s.next
    case ListBindings(i, _) => i
    case ListFails(i) => i
    case AlreadyThere(i) => i
    case CreateBinding(i) => i
    case CreateFails(i, _) => i
    case SendError(i) => i
    case Record(i) => i
    case Release(i) => i
  }

  lemma DispatchStep(bs: seq<Binding>, limit: nat, s: State, e: Event)
    requires DispatchInv(bs, s) && Enabled(bs, limit, s, e)
    ensures DispatchInv(bs, After(bs, limit, s, e))
    ensures forall i :: i != Moves(s, e) ==>
              var t := After(bs, limit, s, e);
              (i in t.workers <==> i in s.workers) && (i in s.workers ==> t.workers[i] == s.workers[i])
  {
    hide Listing, AlreadyHas;
  }

  predicate Active(s: State, i: nat) { i in s.workers && !s.workers[i].Gone? }

  predicate SentError(s: State, i: nat) { i in s.workers && Failed(s.workers[i]) }

  /** What an event does to the worker it moves. */
  lemma MovedWorker(bs: seq<Binding>, limit: nat, s: State, e: Event)
    requires DispatchInv(bs, s) && Enabled(bs, limit, s, e)
    ensures var t, i := After(bs, limit, s, e), Moves(s, e);
            && (e.Spawn? ==> s.slots < limit && t.slots == s.slots + 1 && !Active(s, i) && Active(t, i))
            && (e.Release? ==> t.slots == (if s.slots > 0 then s.slots - 1 else 0) && Active(s, i) && !Active(t, i))
            && (!e.Spawn? && !e.Release? ==> t.slots == s.slots && (Active(t, i) <==> Active(s, i)))
            && (e.SendError? ==> t.errors == s.errors + 1 && !SentError(s, i) && SentError(t, i))
            && (!e.SendError? ==> t.errors == s.errors && (SentError(t, i) <==> SentError(s, i)))
  {
    hide Listing, AlreadyHas, GrantsOf;
  }

  /** A set changes with the membership of one element. */
  lemma OneMember(a: set<nat>, b: set<nat>, i: nat)
    requires forall j: nat :: j != i ==> (j in a <==> j in b)
    ensures |b| == |a| + (if i in b then 1 else 0) - (if i in a then 1 else 0)
  {
    assert a - {i} == b - {i};
    assert i in a ==> a == (a - {i}) + {i};
    assert i in b ==> b == (b - {i}) + {i};
    assert i !in a ==> a - {i} == a;
    assert i !in b ==> b - {i} == b;
  }

  lemma SlotsStep(bs: seq<Binding>, limit: nat, s: State, e: Event)
    requires DispatchInv(bs, s) && SlotsInv(limit, s) && Enabled(bs, limit, s, e)
    ensures SlotsInv(limit, After(bs, limit, s, e))
  {
    hide Enabled, After, Moves, DispatchInv;
    MovedWorker(bs, limit, s, e);
    DispatchStep(bs, limit, s, e);
    var t, i := After(bs, limit, s, e), Moves(s, e);
    assert forall j: nat :: j in InFlight(s) <==> Active(s, j);
    assert forall j: nat :: j in InFlight(t) <==> Active(t, j);
    hide InFlight;
    OneMember(InFlight(s), InFlight(t), i);
  }

  lemma ErrorsStep(bs: seq<Binding>, limit: nat, s: State, e: Event)
    requires DispatchInv(bs, s) && ErrorsInv(s) && Enabled(bs, limit, s, e)
    ensures ErrorsInv(After(bs, limit, s, e))
  {
    hide Enabled, After, Moves, DispatchInv, Failed;
    MovedWorker(bs, limit, s, e);
    DispatchStep(bs, limit, s, e);
    var t, i := After(bs, limit, s, e), Moves(s, e);
    assert forall j: nat :: j in ErrorSenders(s) <==> SentError(s, j);
    assert forall j: nat :: j in ErrorSenders(t) <==> SentError(t, j);
    hide ErrorSenders;
    OneMember(ErrorSenders(s), ErrorSenders(t), i);
  }

  /** What an event does to the result of each index. */
  lemma MovedResult(bs: seq<Binding>, limit: nat, s: State, e: Event)
    requires DispatchInv(bs, s) && Enabled(bs, limit, s, e)
    ensures var t, i := After(bs, limit, s, e), Moves(s, e);
            if e.SkipPlanned? || e.Record? then
              !HasResult(bs, s, i) && HasResult(bs, t, i) && t.results == s.results + [(i, ResultOf(bs, t, i))]
            else
              t.results == s.results && (HasResult(bs, t, i) <==> HasResult(bs, s, i))
              && (HasResult(bs, s, i) ==> ResultOf(bs, t, i) == ResultOf(bs, s, i))
  {
    hide Listing, AlreadyHas, GrantsOf;
  }

  lemma OtherResults(bs: seq<Binding>, limit: nat, s: State, e: Event)
    requires DispatchInv(bs, s) && Enabled(bs, limit, s, e)
    ensures var t, i := After(bs, limit, s, e), Moves(s, e);
            && (forall j: nat :: j != i ==> (HasResult(bs, t, j) <==> HasResult(bs, s, j)))
            && (forall j: nat :: j != i && HasResult(bs, s, j) ==> ResultOf(bs, t, j) == ResultOf(bs, s, j))
  {
    hide Listing, AlreadyHas, GrantsOf;
  }

  lemma ResultsStep(bs: seq<Binding>, limit: nat, s: State, e: Event)
    requires DispatchInv(bs, s) && ResultsInv(bs, s) && Enabled(bs, limit, s, e)
    ensures ResultsInv(bs, After(bs, limit, s, e))
  {
    hide Enabled, After, HasResult, ResultOf, Moves, DispatchInv;
    MovedResult(bs, limit, s, e);
    OtherResults(bs, limit, s, e);
  }

  lemma WantedHas(bs: seq<Binding>, i: nat)
    requires i < |bs| && bs[i].action != SkipExists
    ensures GrantsOf(bs[i]) <= Wanted(bs)
  {
  }

  lemma StoreStep(bs: seq<Binding>, limit: nat, initial: Store, s: State, e: Event)
    requires DispatchInv(bs, s) && StoreInv(bs, initial, s) && Enabled(bs, limit, s, e)
    ensures StoreInv(bs, initial, After(bs, limit, s, e))
  {
    DispatchStep(bs, limit, s, e);
    var t, i := After(bs, limit, s, e), Moves(s, e);
    if e.CreateBinding? || e.CreateFails? {
      WantedHas(bs, i);
    }
    if e.ListBindings? && AlreadyHas(e.listed, bs[i]) {
      FoundIsStored(s.store, bs[i], e.listed);
    }
    hide Wanted, GrantsOf, Listing, AlreadyHas;
  }

  /** What a listing already has, the store holds. */
  lemma FoundIsStored(store: Store, b: Binding, listed: seq<Binding>)
    requires Listing(store, b.principal, b.scope, listed) && AlreadyHas(listed, b)
    ensures GrantsOf(b) <= store
  {
    var e :| e in listed && Patterns.SameRole(e, b) && Patterns.SamePatterns(e.patterns, b.patterns);
    ListedOne(store, b, listed, e);
    MemberOfPermutation(e.patterns, b.patterns);
  }

  lemma InitialInv(bs: seq<Binding>, limit: nat, s: State)
    requires Initial(s)
    ensures Inv(bs, limit, s.store, s)
  {
    assert InFlight(s) == {} && ErrorSenders(s) == {};
    hide GrantsOf;
  }

  lemma {:induction false} InvAlways(bs: seq<Binding>, limit: nat, states: seq<State>, events: seq<Event>, k: nat)
    requires Run(bs, limit, states, events) && k <= |events|
    ensures Inv(bs, limit, states[0].store, states[k])
  {
    if k == 0 {
      InitialInv(bs, limit, states[0]);
    } else {
      InvAlways(bs, limit, states, events, k - 1);
      assert StepAt(bs, limit, states, events, k - 1);
      var s, e := states[k - 1], events[k - 1];
      hide Enabled, After;
      DispatchStep(bs, limit, s, e);
      SlotsStep(bs, limit, s, e);
      ErrorsStep(bs, limit, s, e);
      ResultsStep(bs, limit, s, e);
      StoreStep(bs, limit, states[0].store, s, e);
    }
  }

  // ---------------------------------------------------------------------------
  // The claims

  /** The workers in flight never exceed the clamped limit, which is at most 64. */
  lemma InFlightBounded(bs: seq<Binding>, parallelism: int, states: seq<State>, events: seq<Event>, k: nat)
    requires Run(bs, Clamp(parallelism), states, events) && k <= |events|
    ensures |InFlight(states[k])| <= Clamp(parallelism) <= 64
  {
    InvAlways(bs, Clamp(parallelism), states, events, k);
  }

  lemma SubsetOfRange(a: set<nat>, n: nat)
    requires forall i :: i in a ==> i < n
    ensures |a| <= n
  {
    RangeSize(n);
    SubsetSize(a, Range(n));
  }

  function Range(n: nat): set<nat> { if n == 0 then {} else Range(n - 1) + {n - 1} }

  lemma SubsetSize(a: set<nat>, b: set<nat>)
    requires a <= b
    ensures |a| <= |b|
  {
    assert b == a + (b - a);
  }

  lemma {:induction false} RangeSize(n: nat)
    ensures |Range(n)| == n && forall i: nat :: i in Range(n) <==> i < n
  {
    if n > 0 { RangeSize(n - 1); }
  }

  /** A send on the error channel never blocks: whenever a worker is about to send, there is room. */
  lemma ErrorSendNeverBlocks(bs: seq<Binding>, limit: nat, states: seq<State>, events: seq<Event>, k: nat, i: nat)
    requires Run(bs, limit, states, events) && k <= |events|
    requires At(states[k], i, Failing)
    ensures Enabled(bs, limit, states[k], SendError(i))
  {
    InvAlways(bs, limit, states, events, k);
    var s := states[k];
    assert i !in ErrorSenders(s);
    SubsetOfRange(ErrorSenders(s) + {i}, |bs|);
    assert |ErrorSenders(s) + {i}| == |ErrorSenders(s)| + 1;
  }

  /** When a run is finished every binding has exactly one result. */
  lemma ExactlyOneResult(bs: seq<Binding>, limit: nat, states: seq<State>, events: seq<Event>, i: nat)
    requires Run(bs, limit, states, events) && Finished(bs, states[|events|]) && i < |bs|
    ensures var rs := states[|events|].results;
            exists k :: 0 <= k < |rs| && rs[k].0 == i && forall m :: 0 <= m < |rs| && rs[m].0 == i ==> m == k
  {
    InvAlways(bs, limit, states, events, |events|);
    var s := states[|events|];
    assert HasResult(bs, s, i);
    var r := (i, ResultOf(bs, s, i));
    assert r in s.results;
    var k :| 0 <= k < |s.results| && s.results[k] == r;
    forall m | 0 <= m < |s.results| && s.results[m].0 == i ensures m == k {
      assert s.results[m].0 == s.results[k].0;
    }
  }

  // ---------------------------------------------------------------------------
  // Results are truthful

  ghost predicate ListedAt(bs: seq<Binding>, e: Event, i: nat, present: bool) {
    i < |bs| && e.ListBindings? && e.i == i && AlreadyHas(e.listed, bs[i]) == present
  }

  /** A listing for the i-th binding showed, or did not show, exactly its patterns. */
  ghost predicate Showed(bs: seq<Binding>, events: seq<Event>, k: nat, i: nat, present: bool) {
    exists m :: 0 <= m < k && m < |events| && ListedAt(bs, events[m], i, present)
  }

  ghost predicate Occurred(events: seq<Event>, k: nat, e: Event) { exists m :: 0 <= m < k && m < |events| && events[m] == e }

  /** Its listing or its create failed. */
  ghost predicate WentWrong(events: seq<Event>, k: nat, i: nat) {
    Occurred(events, k, ListFails(i)) || Occurred(events, k, CreateFails(i, true)) || Occurred(events, k, CreateFails(i, false))
  }

  ghost predicate Truthful(bs: seq<Binding>, events: seq<Event>, k: nat, i: nat, st: Status) {
    match st
    case StatusCreated => Showed(bs, events, k, i, false) && Occurred(events, k, CreateBinding(i))
    case StatusSkipExists => Showed(bs, events, k, i, true)
    case StatusFailed => WentWrong(events, k, i)
  }

  ghost predicate Explained(bs: seq<Binding>, events: seq<Event>, k: nat, i: nat, w: Worker) {
    match w
    case Started => true
    case Listed(present) => Showed(bs, events, k, i, present)
    case Failing => WentWrong(events, k, i)
    case Deciding(st) => Truthful(bs, events, k, i, st)
    case Recorded(st) => Truthful(bs, events, k, i, st)
    case Gone(st) => Truthful(bs, events, k, i, st)
  }

  lemma StillExplained(bs: seq<Binding>, events: seq<Event>, k: nat, i: nat, w: Worker)
    requires Explained(bs, events, k, i, w)
    ensures Explained(bs, events, k + 1, i, w)
  {
    hide ListedAt;
  }

  lemma MovedExplained(bs: seq<Binding>, limit: nat, s: State, events: seq<Event>, k: nat)
    requires k < |events| && DispatchInv(bs, s) && Enabled(bs, limit, s, events[k])
    requires forall i :: i in s.workers ==> Explained(bs, events, k, i, s.workers[i])
    ensures var t, i := After(bs, limit, s, events[k]), Moves(s, events[k]);
            i in t.workers ==> Explained(bs, events, k + 1, i, t.workers[i])
  {
    var e, i := events[k], Moves(s, events[k]);
    if i in s.workers { StillExplained(bs, events, k, i, s.workers[i]); }
    assert Occurred(events, k + 1, e);
    if e.ListBindings? { assert ListedAt(bs, events[k], i, AlreadyHas(e.listed, bs[i])); }
    hide Listing, AlreadyHas, ListedAt, GrantsOf;
  }

  lemma {:induction false} WorkersExplained(bs: seq<Binding>, limit: nat, states: seq<State>, events: seq<Event>, k: nat)
    requires Run(bs, limit, states, events) && k <= |events|
    ensures forall i :: i in states[k].workers ==> Explained(bs, events, k, i, states[k].workers[i])
  {
    if k > 0 {
      WorkersExplained(bs, limit, states, events, k - 1);
      InvAlways(bs, limit, states, events, k - 1);
      assert StepAt(bs, limit, states, events, k - 1);
      var s, t := states[k - 1], states[k];
      hide Enabled, After, Explained;
      MovedExplained(bs, limit, s, events, k - 1);
      DispatchStep(bs, limit, s, events[k - 1]);
      forall i | i in t.workers ensures Explained(bs, events, k, i, t.workers[i]) {
        if i != Moves(s, events[k - 1]) { StillExplained(bs, events, k - 1, i, s.workers[i]); }
      }
    }
  }

  /** A result says what happened: created after a listing that did not show the binding, there already
      because the plan or a listing said so, failed because the listing or the create failed. */
  lemma ResultsAreTruthful(bs: seq<Binding>, limit: nat, states: seq<State>, events: seq<Event>, k: nat, i: nat, st: Status)
    requires Run(bs, limit, states, events) && k <= |events| && (i, st) in states[k].results
    ensures i < |bs|
    ensures if bs[i].action == SkipExists then st == StatusSkipExists else Truthful(bs, events, k, i, st)
  {
    InvAlways(bs, limit, states, events, k);
    WorkersExplained(bs, limit, states, events, k);
    var s := states[k];
    assert HasResult(bs, s, (i, st).0) && ResultOf(bs, s, (i, st).0) == (i, st).1;
    hide Truthful, SlotsInv, ErrorsInv, StoreInv, ResultsInv;
  }

  ghost predicate NoFailure(s: State) { forall r :: r in s.results ==> r.1 != StatusFailed }

  /** A finished run without failures leaves the initial store and everything the plan wants, whatever
      the schedule was. */
  lemma FinalStore(bs: seq<Binding>, limit: nat, states: seq<State>, events: seq<Event>)
    requires Run(bs, limit, states, events) && Finished(bs, states[|events|]) && NoFailure(states[|events|])
    ensures states[|events|].store == states[0].store + Wanted(bs)
  {
    InvAlways(bs, limit, states, events, |events|);
    var s := states[|events|];
    forall g | g in Wanted(bs) ensures g in s.store {
      var i :| 0 <= i < |bs| && bs[i].action != SkipExists && g in GrantsOf(bs[i]);
      assert i in s.workers && s.workers[i].Gone? && HasResult(bs, s, i);
      assert (i, ResultOf(bs, s, i)) in s.results;
      assert Satisfied(s.workers[i]);
    }
  }

  /** Confluence: two failure-free runs from the same store end in the same store. */
  lemma Confluence(bs: seq<Binding>, limit: nat, states: seq<State>, events: seq<Event>,
                   limit': nat, states': seq<State>, events': seq<Event>)
    requires Run(bs, limit, states, events) && Finished(bs, states[|events|]) && NoFailure(states[|events|])
    requires Run(bs, limit', states', events') && Finished(bs, states'[|events'|]) && NoFailure(states'[|events'|])
    requires states[0].store == states'[0].store
    ensures states[|events|].store == states'[|events'|].store
  {
    FinalStore(bs, limit, states, events);
    FinalStore(bs, limit', states', events');
  }

  /** Re-running after a failure-free run leaves the store as it is at every step, even of a run that
      itself fails. */
  lemma RerunChangesNothing(bs: seq<Binding>, limit: nat, states: seq<State>, events: seq<Event>,
                            limit': nat, states': seq<State>, events': seq<Event>, k: nat)
    requires Run(bs, limit, states, events) && Finished(bs, states[|events|]) && NoFailure(states[|events|])
    requires Run(bs, limit', states', events') && states'[0].store == states[|events|].store && k <= |events'|
    ensures states'[k].store == states[|events|].store
  {
    FinalStore(bs, limit, states, events);
    InvAlways(bs, limit', states', events', k);
  }

  /** After a failure-free run, verification finds every CREATE binding that repeats no pattern. */
  lemma AppliedIsMatched(bs: seq<Binding>, limit: nat, states: seq<State>, events: seq<Event>, i: nat, listed: seq<Binding>)
    requires Run(bs, limit, states, events) && Finished(bs, states[|events|]) && NoFailure(states[|events|])
    requires i < |bs| && bs[i].action != SkipExists && bs[i].patterns != []
    requires Listing(states[|events|].store, bs[i].principal, bs[i].scope, listed)
    ensures Matched(listed, bs[i]) <==> NoDuplicates(bs[i].patterns)
  {
    FinalStore(bs, limit, states, events);
    WantedHas(bs, i);
    MatchedIff(states[|events|].store, bs[i], listed);
  }

  // ---------------------------------------------------------------------------
  // Progress

  function WorkerRank(w: Worker): nat {
    match w
    case Started => 5
    case Listed(_) => 4
    case Failing => 3
    case Deciding(_) => 2
    case Recorded(_) => 1
    case Gone(_) => 0
  }

  function RankAt(s: State, i: nat): nat {
    if i >= s.next then 6 else if i in s.workers then WorkerRank(s.workers[i]) else 0
  }

  function RankBelow(s: State, n: nat): nat { if n == 0 then 0 else RankBelow(s, n - 1) + RankAt(s, n - 1) }

  lemma {:induction false} RankDrops(s: State, t: State, n: nat, i: nat)
    requires forall j :: 0 <= j < n && j != i ==> RankAt(t, j) == RankAt(s, j)
    requires RankAt(t, i) < RankAt(s, i)
    ensures if i < n then RankBelow(t, n) < RankBelow(s, n) else RankBelow(t, n) == RankBelow(s, n)
  {
    if n > 0 { RankDrops(s, t, n - 1, i); }
  }

  lemma RankStep(bs: seq<Binding>, limit: nat, s: State, e: Event)
    requires DispatchInv(bs, s) && Enabled(bs, limit, s, e)
    ensures var t, i := After(bs, limit, s, e), Moves(s, e);
            i < |bs| && RankAt(t, i) < RankAt(s, i) && forall j: nat :: j != i ==> RankAt(t, j) == RankAt(s, j)
  {
    hide Listing, AlreadyHas, GrantsOf;
  }

  /** Every step brings the run nearer its end, so every run is finite. */
  lemma RunsAreFinite(bs: seq<Binding>, limit: nat, states: seq<State>, events: seq<Event>, k: nat)
    requires Run(bs, limit, states, events) && k < |events|
    ensures RankBelow(states[k + 1], |bs|) < RankBelow(states[k], |bs|) <= 6 * |bs|
  {
    InvAlways(bs, limit, states, events, k);
    assert StepAt(bs, limit, states, events, k);
    RankStep(bs, limit, states[k], events[k]);
    RankBounded(states[k], |bs|);
    hide Enabled, After, RankAt;
    RankDrops(states[k], states[k + 1], |bs|, Moves(states[k], events[k]));
  }

  lemma {:induction false} RankBounded(s: State, n: nat)
    ensures RankBelow(s, n) <= 6 * n
  {
    if n > 0 { RankBounded(s, n - 1); }
  }

  /** The service can always answer: for every store some listing describes it. */
  lemma ListingExists(store: Store, principal: string, scope: Scope) returns (bs: seq<Binding>)
    ensures Listing(store, principal, scope, bs)
  {
    var roles := set g | g in store && g.principal == principal && g.clusters == Clusters(scope) :: g.role;
    bs := ListRoles(store, principal, scope, roles);
    forall role | PatternsAt(store, principal, role, scope) != {} ensures exists b :: b in bs && b.principal == principal && b.role == role {
      var p :| p in PatternsAt(store, principal, role, scope);
      HasPattern(store, principal, role, scope, p);
      var g := Stored(principal, role, Clusters(scope), p);
      assert g in store && g.role in roles;
    }
  }

  lemma ListRoles(store: Store, principal: string, scope: Scope, roles: set<string>) returns (bs: seq<Binding>)
    ensures forall b :: b in bs ==> b.principal == principal && b.scope == scope && NoDuplicates(b.patterns) && Aggregates(store, b)
    ensures forall role :: role in roles ==> exists b :: b in bs && b.role == role
    decreases |roles|
  {
    bs := [];
    if roles != {} {
      var role :| role in roles;
      var rest := ListRoles(store, principal, scope, roles - {role});
      var ps := Enumerate(PatternsAt(store, principal, role, scope));
      var b := Binding("", CreateAction, principal, role, scope, ps, []);
      bs := [b] + rest;
      forall x | x in roles ensures exists c :: c in bs && c.role == x {
        if x == role {
          assert b in bs;
        } else {
          assert x in roles - {role};
          var c :| c in rest && c.role == x;
          assert c in bs;
        }
      }
    }
  }

  lemma Enumerate<T>(ps: set<T>) returns (s: seq<T>)
    ensures NoDuplicates(s) && forall p :: p in s <==> p in ps
    decreases |ps|
  {
    s := [];
    if ps != {} {
      var p :| p in ps;
      var rest := Enumerate(ps - {p});
      s := [p] + rest;
    }
  }

  /** No run gets stuck, even if nothing ever fails: in every state that is not finished some event
      other than a failure can happen. */
  lemma NeverStuck(bs: seq<Binding>, parallelism: int, states: seq<State>, events: seq<Event>, k: nat) returns (e: Event)
    requires Run(bs, Clamp(parallelism), states, events) && k <= |events| && !Finished(bs, states[k])
    ensures Enabled(bs, Clamp(parallelism), states[k], e) && !e.ListFails? && !e.CreateFails?
  {
    var s := states[k];
    InvAlways(bs, Clamp(parallelism), states, events, k);
    if i :| i in s.workers && !s.workers[i].Gone? {
      match s.workers[i] {
        case Started =>
          var listed := ListingExists(s.store, bs[i].principal, bs[i].scope);
          e := ListBindings(i, listed);
        case Listed(present) => e := if present then AlreadyThere(i) else CreateBinding(i);
        case Failing =>
          ErrorSendNeverBlocks(bs, Clamp(parallelism), states, events, k, i);
          e := SendError(i);
        case Deciding(_) => e := Record(i);
        case Recorded(_) => e := Release(i);
      }
    } else {
      assert InFlight(s) == {};
      e := if bs[s.next].action == SkipExists then SkipPlanned else Spawn;
    }
  }

  /** Nothing has failed so far. */
  ghost predicate Clean(s: State) {
    NoFailure(s) && forall i :: i in s.workers ==> !s.workers[i].Failing? && !Failed(s.workers[i])
  }

  lemma CleanStep(bs: seq<Binding>, limit: nat, s: State, e: Event)
    requires Clean(s) && Enabled(bs, limit, s, e) && !e.ListFails? && !e.CreateFails?
    ensures Clean(After(bs, limit, s, e))
  {
    hide Listing, AlreadyHas, GrantsOf;
  }

  lemma ExtendRun(bs: seq<Binding>, limit: nat, states: seq<State>, events: seq<Event>, e: Event)
    returns (states': seq<State>, events': seq<Event>)
    requires Run(bs, limit, states, events) && Enabled(bs, limit, states[|events|], e)
    ensures Run(bs, limit, states', events') && events' == events + [e]
    ensures states' == states + [After(bs, limit, states[|events|], e)]
  {
    hide Enabled, After;
    states', events' := states + [After(bs, limit, states[|events|], e)], events + [e];
    forall k | 0 <= k < |events'| ensures StepAt(bs, limit, states', events', k) {
      if k < |events| { assert StepAt(bs, limit, states, events, k); }
    }
  }

  /** From every store some run finishes without failures. */
  lemma CleanRunExists(bs: seq<Binding>, parallelism: int, store: Store) returns (states: seq<State>, events: seq<Event>)
    ensures Run(bs, Clamp(parallelism), states, events) && states[0].store == store
    ensures Finished(bs, states[|events|]) && NoFailure(states[|events|])
  {
    states, events := [State(store, 0, map[], 0, [], 0)], [];
    hide Enabled, After, Finished;
    while !Finished(bs, states[|events|])
      invariant Run(bs, Clamp(parallelism), states, events) && states[0].store == store && Clean(states[|events|])
      decreases RankBelow(states[|events|], |bs|)
    {
      var n := |events|;
      var e := NeverStuck(bs, parallelism, states, events, n);
      CleanStep(bs, Clamp(parallelism), states[n], e);
      ghost var last := states[n];
      states, events := ExtendRun(bs, Clamp(parallelism), states, events, e);
      RunsAreFinite(bs, Clamp(parallelism), states, events, n);
      assert states[n] == last && |events| == n + 1;
    }
  }

  // ---------------------------------------------------------------------------
  // A second run

  /** The patterns wanted by the plan or stored before, at a binding's principal, role and clusters, are
      all its own. */
  ghost predicate SoleOwner(bs: seq<Binding>, initial: Store, b: Binding) {
    forall g :: g in initial + Wanted(bs) && g.principal == b.principal && g.role == b.role && g.clusters == Clusters(b.scope)
      ==> g.pattern in b.patterns
  }

  /** After a failure-free run a listing makes apply skip a binding iff it repeats no pattern and its
      role's patterns are all its own. Otherwise it is posted again, although all of it is stored. */
  lemma LaterListingIff(bs: seq<Binding>, limit: nat, states: seq<State>, events: seq<Event>, i: nat, listed: seq<Binding>)
    requires Run(bs, limit, states, events) && Finished(bs, states[|events|]) && NoFailure(states[|events|])
    requires i < |bs| && bs[i].action != SkipExists && bs[i].patterns != []
    requires Listing(states[|events|].store, bs[i].principal, bs[i].scope, listed)
    ensures GrantsOf(bs[i]) <= states[|events|].store
    ensures AlreadyHas(listed, bs[i]) <==> NoDuplicates(bs[i].patterns) && SoleOwner(bs, states[0].store, bs[i])
  {
    FinalStore(bs, limit, states, events);
    WantedHas(bs, i);
    var b, store := bs[i], states[|events|].store;
    hide Run, Finished, NoFailure, Listing, AlreadyHas, Wanted, GrantsOf;
    AlreadyHasIff(store, b, listed);
    forall p ensures p in PatternsAt(store, b.principal, b.role, b.scope) <==> Stored(b.principal, b.role, Clusters(b.scope), p) in store {
      HasPattern(store, b.principal, b.role, b.scope, p);
    }
    hide PatternsAt;
    assert forall g: Stored :: g.principal == b.principal && g.role == b.role && g.clusters == Clusters(b.scope)
             ==> g == Stored(b.principal, b.role, Clusters(b.scope), g.pattern);
  }

  /** A later run is about to post a binding that is stored in full. */
  ghost predicate PostsAgain(
      bs: seq<Binding>, limit: nat, states: seq<State>, events: seq<Event>, states': seq<State>, events': seq<Event>, i: nat) {
    && Run(bs, limit, states, events) && Finished(bs, states[|events|]) && NoFailure(states[|events|])
    && Run(bs, limit, states', events') && states'[0].store == states[|events|].store
    && i < |bs| && GrantsOf(bs[i]) <= states'[|events'|].store
    && Enabled(bs, limit, states'[|events'|], CreateBinding(i))
  }

  function OnTopic(name: string): Binding {
    Binding(name, CreateAction, "User:a", "DeveloperRead", Scope("", "", "kafka", "", "", ""), [Pattern(Topic, name, LITERAL)], [])
  }

  /** A run whose first worker has listed its principal. */
  lemma FirstListed(bs: seq<Binding>, limit: nat, store: Store, listed: seq<Binding>) returns (states: seq<State>, events: seq<Event>)
    requires bs != [] && bs[0].action != SkipExists && limit > 0 && Listing(store, bs[0].principal, bs[0].scope, listed)
    ensures Run(bs, limit, states, events) && states[0].store == store && states[|events|].store == store
    ensures At(states[|events|], 0, Listed(AlreadyHas(listed, bs[0])))
  {
    hide Listing, AlreadyHas;
    states, events := [State(store, 0, map[], 0, [], 0)], [];
    states, events := ExtendRun(bs, limit, states, events, Spawn);
    states, events := ExtendRun(bs, limit, states, events, ListBindings(0, listed));
  }

  /** Two bindings of one role on two topics: each is posted by the first run, and a second run posts
      the first of them again. */
  lemma RerunMayPostAgain()
    ensures exists bs, limit, states, events, states', events', i :: PostsAgain(bs, limit, states, events, states', events', i)
  {
    var bs := [OnTopic("a"), OnTopic("b")];
    hide Listing, AlreadyHas, GrantsOf, Finished, Run;
    var states, events := CleanRunExists(bs, 4, {});
    assert |states| == |events| + 1 by { assert Run(bs, Clamp(4), states, events); RunLength(bs, Clamp(4), states, events); }
    var store := states[|events|].store;
    var listed := ListingExists(store, bs[0].principal, bs[0].scope);
    LaterListingIff(bs, Clamp(4), states, events, 0, listed);
    OtherTopicWanted(states[0].store);
    var states', events' := FirstListed(bs, Clamp(4), store, listed);
    RunLength(bs, Clamp(4), states', events');
    assert PostsAgain(bs, Clamp(4), states, events, states', events', 0);
  }

  lemma RunLength(bs: seq<Binding>, limit: nat, states: seq<State>, events: seq<Event>)
    requires Run(bs, limit, states, events)
    ensures |states| == |events| + 1
  {
  }

  lemma OtherTopicWanted(initial: Store)
    ensures !SoleOwner([OnTopic("a"), OnTopic("b")], initial, OnTopic("a"))
  {
    var bs, b := [OnTopic("a"), OnTopic("b")], OnTopic("b");
    var g := Stored(b.principal, b.role, Clusters(b.scope), b.patterns[0]);
    assert g in GrantsOf(b);
    assert bs[1] == b && g in Wanted(bs) by { WantedHas(bs, 1); }
    assert "a"[0] != "b"[0];
  }
}
