/** Kahn's algorithm over step ids: degree counters, dependents lists and a ready stack. */
module TopologicalSort {
  import opened Common
  import opened Plan

  datatype PlanError =
    | UnknownDependency(step: StepId, dependency: StepId)
    | DependencyCycle

  /** The loop state: remaining in-degrees, the stack of ready ids, and the order built so far. */
  datatype State = State(degree: map<StepId, nat>, ready: seq<StepId>, sorted: seq<StepId>)

  /** All dependency entries of the steps called `id`. */
  function DependenciesOf(steps: seq<ProvisionStep>, id: StepId): seq<StepId> {
    if steps == [] then []
    else
      var last := steps[|steps| - 1];
      DependenciesOf(steps[..|steps| - 1], id) + if last.id == id then last.dependsOn else []
  }

  /** One entry per dependency entry naming `on`, in plan order. */
  function Dependents(steps: seq<ProvisionStep>, on: StepId): seq<StepId> {
    if steps == [] then []
    else
      var last := steps[|steps| - 1];
      Dependents(steps[..|steps| - 1], on) + DependentEntries(last.id, last.dependsOn, on)
  }

  function DependentEntries(id: StepId, dependsOn: seq<StepId>, on: StepId): seq<StepId> {
    if dependsOn == [] then []
    else
      var rest := DependentEntries(id, dependsOn[..|dependsOn| - 1], on);
      if dependsOn[|dependsOn| - 1] == on then rest + [id] else rest
  }

  function InitialReady(steps: seq<ProvisionStep>, degree: map<StepId, nat>): seq<StepId> {
    if steps == [] then []
    else
      var id := steps[|steps| - 1].id;
      var rest := InitialReady(steps[..|steps| - 1], degree);
      if id in degree && degree[id] == 0 then rest + [id] else rest
  }

  /** Total number of dependency entries of the steps called `id`. */
  function InDegree(steps: seq<ProvisionStep>, id: StepId): nat {
    if steps == [] then 0
    else
      InDegree(steps[..|steps| - 1], id)
      + if steps[|steps| - 1].id == id then |steps[|steps| - 1].dependsOn| else 0
  }

  function Initial(steps: seq<ProvisionStep>): State {
    var degree := map id | id in Ids(steps) :: InDegree(steps, id);
    State(degree, InitialReady(steps, degree), [])
  }

  /** Decrement each dependent in turn (saturating at zero); one that reaches zero joins the stack. */
  function Relax(dependents: seq<StepId>, degree: map<StepId, nat>, ready: seq<StepId>): (map<StepId, nat>, seq<StepId>) {
    if dependents == [] then (degree, ready)
    else
      var d := dependents[0];
      if d !in degree then Relax(dependents[1..], degree, ready)
      else
        var left := if degree[d] > 0 then degree[d] - 1 else 0;
        Relax(dependents[1..], degree[d := left], if left == 0 then ready + [d] else ready)
  }

  /** One turn of the main loop; the stack is popped from the back. */
  function Pop(steps: seq<ProvisionStep>, st: State): State
    requires st.ready != []
  {
    var next := st.ready[|st.ready| - 1];
    var (degree, ready) := Relax(Dependents(steps, next), st.degree, st.ready[..|st.ready| - 1]);
    State(degree, ready, st.sorted + [next])
  }

  function Pops(steps: seq<ProvisionStep>, n: nat): State {
    if n == 0 then Initial(steps)
    else
      var st := Pops(steps, n - 1);
      if st.ready == [] then st else Pop(steps, st)
  }

  /** What the loop has sorted after one turn per step; if it succeeds it has ended by then. */
  function KahnOrder(steps: seq<ProvisionStep>): seq<StepId> {
    Pops(steps, |steps|).sorted
  }

  // ---- counting ----

  /** Dependency entries not yet in `done`. */
  ghost function Pending(deps: seq<StepId>, done: seq<StepId>): nat {
    if deps == [] then 0
    else Pending(deps[..|deps| - 1], done) + if deps[|deps| - 1] in done then 0 else 1
  }

  lemma {:induction false} PendingAfter(deps: seq<StepId>, done: seq<StepId>, x: StepId)
    requires x !in done
    ensures Pending(deps, done + [x]) + multiset(deps)[x] == Pending(deps, done)
  {
    if deps != [] {
      var front, last := deps[..|deps| - 1], deps[|deps| - 1];
      PendingAfter(front, done, x);
      assert deps == front + [last];
    }
  }

  lemma {:induction false} PendingAll(deps: seq<StepId>)
    ensures Pending(deps, []) == |deps|
  {
    if deps != [] {
      PendingAll(deps[..|deps| - 1]);
    }
  }

  lemma {:induction false} PendingZero(deps: seq<StepId>, done: seq<StepId>)
    ensures Pending(deps, done) == 0 <==> forall i :: 0 <= i < |deps| ==> deps[i] in done
  {
    if deps != [] {
      var front := deps[..|deps| - 1];
      PendingZero(front, done);
      assert forall i :: 0 <= i < |front| ==> front[i] == deps[i];
      if Pending(deps, done) == 0 {
        forall i | 0 <= i < |deps| ensures deps[i] in done {
          if i < |front| { assert front[i] in done; }
        }
      }
    }
  }

  lemma {:induction false} EntriesCount(id: StepId, deps: seq<StepId>, on: StepId)
    ensures multiset(DependentEntries(id, deps, on))[id] == multiset(deps)[on]
    ensures forall x :: x in DependentEntries(id, deps, on) ==> x == id
  {
    if deps != [] {
      EntriesCount(id, deps[..|deps| - 1], on);
      assert deps == deps[..|deps| - 1] + [deps[|deps| - 1]];
    }
  }

  lemma EntriesSnoc(id: StepId, deps: seq<StepId>, d: StepId, on: StepId)
    ensures DependentEntries(id, deps + [d], on) == DependentEntries(id, deps, on) + if d == on then [id] else []
  {
    assert (deps + [d])[..|deps|] == deps;
  }

  /** `v` occurs among the dependents of `on` exactly as often as `on` among the dependencies of `v`. */
  lemma {:induction false} DependentsMirrorDependencies(steps: seq<ProvisionStep>, v: StepId, on: StepId)
    ensures multiset(Dependents(steps, on))[v] == multiset(DependenciesOf(steps, v))[on]
    ensures InDegree(steps, v) == |DependenciesOf(steps, v)|
  {
    if steps != [] {
      var last := steps[|steps| - 1];
      DependentsMirrorDependencies(steps[..|steps| - 1], v, on);
      EntriesCount(last.id, last.dependsOn, on);
      if v != last.id { assert v !in DependentEntries(last.id, last.dependsOn, on); }
    }
  }

  /** The entries of `DependenciesOf` are exactly what a step of that id needs. */
  lemma {:induction false} NeedsIsDependency(steps: seq<ProvisionStep>, a: StepId, b: StepId)
    ensures Needs(steps, a, b) <==> b in DependenciesOf(steps, a)
    ensures Needs(steps, a, b) ==> a in Ids(steps)
  {
    if steps != [] {
      var front, last := steps[..|steps| - 1], steps[|steps| - 1];
      NeedsIsDependency(front, a, b);
      if Needs(steps, a, b) {
        var i :| 0 <= i < |steps| && steps[i].id == a && b in steps[i].dependsOn;
        assert Ids(steps)[i] == a;
        if i < |front| { assert front[i].id == a && b in front[i].dependsOn; }
      }
      if Needs(front, a, b) {
        var i :| 0 <= i < |front| && front[i].id == a && b in front[i].dependsOn;
        assert steps[i].id == a && b in steps[i].dependsOn;
      }
    }
  }

  /** Dependents are steps of the plan. */
  lemma DependentIsStep(steps: seq<ProvisionStep>, v: StepId, on: StepId)
    requires v in Dependents(steps, on)
    ensures v in Ids(steps) && Needs(steps, v, on)
  {
    DependentsMirrorDependencies(steps, v, on);
    assert v in multiset(Dependents(steps, on));
    assert on in multiset(DependenciesOf(steps, v));
    NeedsIsDependency(steps, v, on);
  }

  // ---- what one relaxation does ----

  /** A counter that stands at `k` after `m` saturating decrements. */
  function Less(k: nat, m: nat): nat { if m <= k then k - m else 0 }

  /** How many of `m` decrements leave a counter that stands at `k` at zero. */
  function Zeroings(k: nat, m: nat): nat { if k == 0 then m else if m >= k then m - k + 1 else 0 }

  lemma ZeroingsAdd(k: nat, a: nat, b: nat)
    ensures Less(k, a + b) == Less(Less(k, a), b)
    ensures Zeroings(k, a + b) == Zeroings(k, a) + Zeroings(Less(k, a), b)
  {
  }

  /** The counter and the pushes of `v` when it occurs `m` times in the list. */
  ghost predicate RelaxedBy(m: nat, degree: map<StepId, nat>, ready: seq<StepId>,
                            degree': map<StepId, nat>, ready': seq<StepId>, v: StepId) {
    && degree'.Keys == degree.Keys
    && (v in degree ==> degree'[v] == Less(degree[v], m))
    && multiset(ready')[v] == multiset(ready)[v] + if v in degree then Zeroings(degree[v], m) else 0
  }

  lemma RelaxedFirst(d: StepId, degree: map<StepId, nat>, ready: seq<StepId>, v: StepId)
    requires d in degree
    ensures var left := Less(degree[d], 1);
      RelaxedBy(if v == d then 1 else 0, degree, ready, degree[d := left], if left == 0 then ready + [d] else ready, v)
  {
  }

  lemma RelaxedThen(m1: nat, m2: nat, degree: map<StepId, nat>, ready: seq<StepId>, degree1: map<StepId, nat>, ready1: seq<StepId>,
                    degree2: map<StepId, nat>, ready2: seq<StepId>, v: StepId)
    requires RelaxedBy(m1, degree, ready, degree1, ready1, v) && RelaxedBy(m2, degree1, ready1, degree2, ready2, v)
    ensures RelaxedBy(m1 + m2, degree, ready, degree2, ready2, v)
  {
    if v in degree { ZeroingsAdd(degree[v], m1, m2); }
  }

  lemma CountFirst(d: StepId, rest: seq<StepId>, v: StepId)
    ensures multiset([d] + rest)[v] == (if v == d then 1 else 0) + multiset(rest)[v]
  {
  }

  /** One relaxation, whatever the counters: each decrement that leaves a zero pushes the id again. */
  lemma {:induction false} RelaxCounts(list: seq<StepId>, degree: map<StepId, nat>, ready: seq<StepId>, v: StepId)
    ensures RelaxedBy(multiset(list)[v], degree, ready, Relax(list, degree, ready).0, Relax(list, degree, ready).1, v)
    decreases |list|
  {
    if list != [] {
      var d, rest := list[0], list[1..];
      assert list == [d] + rest;
      CountFirst(d, rest, v);
      if d !in degree {
        RelaxCounts(rest, degree, ready, v);
      } else {
        var left := Less(degree[d], 1);
        var degree1, ready1 := degree[d := left], if left == 0 then ready + [d] else ready;
        RelaxedFirst(d, degree, ready, v);
        RelaxCounts(rest, degree1, ready1, v);
        var (degree2, ready2) := Relax(rest, degree1, ready1);
        RelaxedThen(if v == d then 1 else 0, multiset(rest)[v], degree, ready, degree1, ready1, degree2, ready2, v);
      }
    }
  }

  /** Every decrement finds a positive counter. */
  ghost predicate NeverSaturates(dependents: seq<StepId>, degree: map<StepId, nat>) {
    forall v :: v in dependents ==> v in degree && multiset(dependents)[v] <= degree[v]
  }

  lemma RelaxDegrees(dependents: seq<StepId>, degree: map<StepId, nat>, ready: seq<StepId>)
    requires NeverSaturates(dependents, degree)
    ensures Relax(dependents, degree, ready).0.Keys == degree.Keys
    ensures forall v :: v in degree ==> Relax(dependents, degree, ready).0[v] + multiset(dependents)[v] == degree[v]
  {
    RelaxCounts(dependents, degree, ready, "");
    forall v | v in degree ensures Relax(dependents, degree, ready).0[v] + multiset(dependents)[v] == degree[v] {
      RelaxCounts(dependents, degree, ready, v);
      assert v !in dependents ==> multiset(dependents)[v] == 0;
    }
  }

  /** The ids that join the stack: those whose counter is used up by this list, each once. */
  ghost predicate Freed(dependents: seq<StepId>, degree: map<StepId, nat>, v: StepId) {
    v in dependents && v in degree && degree[v] == multiset(dependents)[v]
  }

  lemma {:induction false} RelaxPushes(list: seq<StepId>, degree: map<StepId, nat>, ready: seq<StepId>) returns (pushed: seq<StepId>)
    ensures Relax(list, degree, ready).1 == ready + pushed
    decreases |list|
  {
    if list == [] {
      pushed := [];
    } else if list[0] !in degree {
      pushed := RelaxPushes(list[1..], degree, ready);
    } else {
      var left := if degree[list[0]] > 0 then degree[list[0]] - 1 else 0;
      var first := if left == 0 then [list[0]] else [];
      pushed := RelaxPushes(list[1..], degree[list[0] := left], ready + first);
      assert ready + first + pushed == ready + (first + pushed);
      assert ready + [] == ready;
      pushed := first + pushed;
    }
  }

  lemma RelaxFrees(dependents: seq<StepId>, degree: map<StepId, nat>, ready: seq<StepId>) returns (freed: seq<StepId>)
    requires NeverSaturates(dependents, degree)
    ensures Relax(dependents, degree, ready).1 == ready + freed
    ensures NoDup(freed)
    ensures forall v :: v in freed <==> Freed(dependents, degree, v)
  {
    freed := RelaxPushes(dependents, degree, ready);
    forall v ensures multiset(freed)[v] == if Freed(dependents, degree, v) then 1 else 0 {
      RelaxCounts(dependents, degree, ready, v);
      assert v in dependents <==> multiset(dependents)[v] > 0;
    }
    forall v ensures v in freed <==> Freed(dependents, degree, v) { assert v in freed <==> multiset(freed)[v] > 0; }
    NoDupByMultiplicity(freed);
  }

  // ---- the loop invariant ----

  ghost predicate Inv(steps: seq<ProvisionStep>, st: State) {
    && NoDup(st.sorted + st.ready)
    && Elems(st.sorted + st.ready) <= Elems(Ids(steps))
    && st.degree.Keys == Elems(Ids(steps))
    && (forall v :: v in st.degree ==> st.degree[v] == Pending(DependenciesOf(steps, v), st.sorted))
    && (forall v :: v in st.degree ==> (st.degree[v] == 0 <==> v in st.sorted + st.ready))
    && DependenciesFirst(steps, st.sorted)
  }

  ghost predicate DependenciesFirst(steps: seq<ProvisionStep>, sorted: seq<StepId>) {
    forall i, d :: 0 <= i < |sorted| && d in DependenciesOf(steps, sorted[i]) ==> d in sorted[..i]
  }

  /** No two steps that start out ready share an id. */
  ghost predicate RootsOnce(steps: seq<ProvisionStep>) { NoDup(Initial(steps).ready) }

  lemma IdsSnoc(steps: seq<ProvisionStep>)
    requires steps != []
    ensures Ids(steps) == Ids(steps[..|steps| - 1]) + [steps[|steps| - 1].id]
  {
  }

  lemma {:induction false} InitialReadyIs(steps: seq<ProvisionStep>, degree: map<StepId, nat>)
    ensures forall v :: v in InitialReady(steps, degree) <==> v in Ids(steps) && v in degree && degree[v] == 0
  {
    if steps != [] {
      IdsSnoc(steps);
      InitialReadyIs(steps[..|steps| - 1], degree);
    }
  }

  lemma {:induction false} InitialReadyOnce(steps: seq<ProvisionStep>, degree: map<StepId, nat>)
    requires DistinctIds(steps)
    ensures NoDup(InitialReady(steps, degree))
  {
    if steps != [] {
      var front := steps[..|steps| - 1];
      IdsSnoc(steps);
      assert Ids(front) == Ids(steps)[..|steps| - 1];
      InitialReadyOnce(front, degree);
      InitialReadyIs(front, degree);
    }
  }

  lemma DistinctRootsOnce(steps: seq<ProvisionStep>)
    requires DistinctIds(steps)
    ensures RootsOnce(steps)
  {
    InitialReadyOnce(steps, Initial(steps).degree);
  }

  lemma InitialInv(steps: seq<ProvisionStep>)
    requires RootsOnce(steps)
    ensures Inv(steps, Initial(steps))
  {
    var st := Initial(steps);
    InitialReadyIs(steps, st.degree);
    assert st.sorted + st.ready == st.ready;
    forall v | v in st.degree
      ensures st.degree[v] == Pending(DependenciesOf(steps, v), [])
    {
      DependentsMirrorDependencies(steps, v, v);
      PendingAll(DependenciesOf(steps, v));
    }
  }

  /** The counters the next pop decrements are all large enough: the saturating subtraction never saturates. */
  lemma PopNeverSaturates(steps: seq<ProvisionStep>, st: State)
    requires Inv(steps, st) && st.ready != []
    ensures NeverSaturates(Dependents(steps, st.ready[|st.ready| - 1]), st.degree)
  {
    var next := st.ready[|st.ready| - 1];
    var list := Dependents(steps, next);
    TopNotSorted(st);
    forall v | v in list
      ensures v in st.degree && multiset(list)[v] <= st.degree[v]
    {
      DependentIsStep(steps, v, next);
      DependentsMirrorDependencies(steps, v, next);
      PendingAfter(DependenciesOf(steps, v), st.sorted, next);
    }
  }

  lemma PopInv(steps: seq<ProvisionStep>, st: State)
    requires Inv(steps, st) && st.ready != []
    ensures Inv(steps, Pop(steps, st))
  {
    var n := |st.ready| - 1;
    var next, kept := st.ready[n], st.ready[..n];
    var list := Dependents(steps, next);
    PopNeverSaturates(steps, st);
    RelaxDegrees(list, st.degree, kept);
    var freed := RelaxFrees(list, st.degree, kept);
    assert st.ready == kept + [next];
    RelaxedInv(steps, st, kept, next, freed, Pop(steps, st));
  }

  lemma RelaxedInv(steps: seq<ProvisionStep>, st: State, kept: seq<StepId>, next: StepId, freed: seq<StepId>, st': State)
    requires Inv(steps, st) && st.ready == kept + [next]
    requires st'.sorted == st.sorted + [next] && st'.ready == kept + freed
    requires NeverSaturates(Dependents(steps, next), st.degree) && st'.degree.Keys == st.degree.Keys
    requires forall v :: v in st.degree ==> st'.degree[v] + multiset(Dependents(steps, next))[v] == st.degree[v]
    requires NoDup(freed) && forall v :: v in freed <==> Freed(Dependents(steps, next), st.degree, v)
    ensures Inv(steps, st')
  {
    TopNotSorted(st);
    PopDegrees(steps, st, next, st'.degree);
    PopDependenciesFirst(steps, st, next);
    PopNoDup(st.sorted, kept, next, freed, Dependents(steps, next), st.degree);
    assert st'.sorted + st'.ready == st.sorted + [next] + kept + freed;
    PopZeros(st, kept, st', Dependents(steps, next), next, freed);
  }

  lemma PopDegrees(steps: seq<ProvisionStep>, st: State, next: StepId, degree': map<StepId, nat>)
    requires Inv(steps, st) && next !in st.sorted && degree'.Keys == st.degree.Keys
    requires forall v :: v in st.degree ==> degree'[v] + multiset(Dependents(steps, next))[v] == st.degree[v]
    ensures forall v :: v in degree' ==> degree'[v] == Pending(DependenciesOf(steps, v), st.sorted + [next])
  {
    forall v | v in degree'
      ensures degree'[v] == Pending(DependenciesOf(steps, v), st.sorted + [next])
    {
      DependentsMirrorDependencies(steps, v, next);
      PendingAfter(DependenciesOf(steps, v), st.sorted, next);
    }
  }

  lemma PopZeros(st: State, kept: seq<StepId>, st': State, list: seq<StepId>, next: StepId, freed: seq<StepId>)
    requires st.ready == kept + [next] && NeverSaturates(list, st.degree)
    requires st'.sorted + st'.ready == st.sorted + [next] + kept + freed
    requires st'.degree.Keys == st.degree.Keys
    requires forall v :: v in st.degree ==> st'.degree[v] + multiset(list)[v] == st.degree[v]
    requires forall v :: v in freed <==> Freed(list, st.degree, v)
    requires forall v :: v in st.degree ==> (st.degree[v] == 0 <==> v in st.sorted + st.ready)
    requires Elems(st.sorted + st.ready) <= st.degree.Keys
    ensures forall v :: v in st'.degree ==> (st'.degree[v] == 0 <==> v in st'.sorted + st'.ready)
    ensures Elems(st'.sorted + st'.ready) <= st.degree.Keys
  {
    forall v | v in st'.degree
      ensures st'.degree[v] == 0 <==> v in st'.sorted + st'.ready
    {
      assert v in list <==> multiset(list)[v] > 0;
    }
    forall v | v in Elems(st'.sorted + st'.ready) ensures v in st.degree.Keys {
      assert v in st.sorted + st.ready ==> v in Elems(st.sorted + st.ready);
    }
  }

  lemma TopNotSorted(st: State)
    requires st.ready != [] && NoDup(st.sorted + st.ready)
    ensures st.ready[|st.ready| - 1] !in st.sorted
  {
    var all := st.sorted + st.ready;
    assert forall i :: 0 <= i < |st.sorted| ==> all[i] == st.sorted[i] && all[i] != all[|all| - 1];
  }

  lemma PopDependenciesFirst(steps: seq<ProvisionStep>, st: State, next: StepId)
    requires Inv(steps, st) && next in st.ready
    ensures DependenciesFirst(steps, st.sorted + [next])
  {
    assert next in st.sorted + st.ready;
    assert next in st.degree && st.degree[next] == 0;
    PendingZero(DependenciesOf(steps, next), st.sorted);
    var sorted' := st.sorted + [next];
    forall i, d | 0 <= i < |sorted'| && d in DependenciesOf(steps, sorted'[i])
      ensures d in sorted'[..i]
    {
      if i < |st.sorted| {
        assert sorted'[..i] == st.sorted[..i];
      } else {
        assert sorted'[..i] == st.sorted;
      }
    }
  }

  lemma PopNoDup(sorted: seq<StepId>, kept: seq<StepId>, next: StepId, freed: seq<StepId>, list: seq<StepId>, degree: map<StepId, nat>)
    requires NoDup(sorted + (kept + [next])) && NoDup(freed)
    requires forall v :: v in freed ==> Freed(list, degree, v)
    requires forall v :: v in degree ==> (degree[v] == 0 <==> v in sorted + (kept + [next]))
    ensures NoDup(sorted + [next] + kept + freed)
  {
    var old_, new_ := sorted + (kept + [next]), sorted + [next] + kept;
    forall v | v in freed ensures v !in new_ {
      assert v in multiset(list);
      assert v !in old_;
    }
    NoDupRotate(sorted, kept, next);
    assert forall i :: 0 <= i < |freed| ==> freed[i] in freed;
    assert forall i :: 0 <= i < |new_| ==> new_[i] in new_;
  }

  lemma NoDupRotate(sorted: seq<StepId>, kept: seq<StepId>, next: StepId)
    requires NoDup(sorted + (kept + [next]))
    ensures NoDup(sorted + [next] + kept)
  {
    var a, b := sorted + (kept + [next]), sorted + [next] + kept;
    assert forall i :: 0 <= i < |sorted| ==> b[i] == a[i];
    assert b[|sorted|] == a[|a| - 1];
    assert forall i :: |sorted| < i < |b| ==> b[i] == a[i - 1];
  }

  // ---- the loop as a whole ----

  /** What holds after `n` turns of the loop. */
  ghost predicate LoopInv(steps: seq<ProvisionStep>, n: nat, st: State) {
    && Inv(steps, st)
    && |st.sorted| <= n
    && (|st.sorted| == n || st.ready == [])
  }

  lemma LoopInvStep(steps: seq<ProvisionStep>, n: nat, st: State)
    requires LoopInv(steps, n, st)
    ensures st.ready == [] ==> LoopInv(steps, n + 1, st)
    ensures st.ready != [] ==> LoopInv(steps, n + 1, Pop(steps, st))
  {
    if st.ready != [] {
      PopInv(steps, st);
      assert |Pop(steps, st).sorted| == |st.sorted| + 1;
    }
  }

  lemma NextLoopInv(steps: seq<ProvisionStep>, n: nat, st: State, st': State)
    requires LoopInv(steps, n, st) && st' == if st.ready == [] then st else Pop(steps, st)
    ensures LoopInv(steps, n + 1, st')
  {
    LoopInvStep(steps, n, st);
  }

  lemma PopsInv(steps: seq<ProvisionStep>, n: nat)
    requires RootsOnce(steps)
    ensures LoopInv(steps, n, Pops(steps, n))
  {
    var inv := (k: nat) => LoopInv(steps, k, Pops(steps, k));
    InitialInv(steps);
    forall k: nat | inv(k) ensures inv(k + 1) { NextLoopInv(steps, k, Pops(steps, k), Pops(steps, k + 1)); }
    Climb(inv, n);
    assert inv(n);
  }

  /** The stack is empty after at most one pop per id. */
  lemma StackEmpties(steps: seq<ProvisionStep>, st: State)
    requires Inv(steps, st)
    ensures |st.sorted| + |st.ready| <= |Elems(Ids(steps))| <= |steps|
  {
    NoDupFits(st.sorted + st.ready, Elems(Ids(steps)));
    ElemsSmaller(Ids(steps));
  }

  /** A full order with dependencies first is a topological order, and leaves no room for a repeated id. */
  lemma FullOrderIsTopological(steps: seq<ProvisionStep>, st: State)
    requires Inv(steps, st) && |st.sorted| == |steps|
    ensures DistinctIds(steps) && IsTopologicalOrder(steps, st.sorted)
  {
    FullOrderHasAll(steps, st);
    forall i, j | 0 <= i < |st.sorted| && 0 <= j < |st.sorted| && Needs(steps, st.sorted[i], st.sorted[j]) ensures j < i {
      ComesBefore(steps, st, i, j);
    }
  }

  lemma FullOrderHasAll(steps: seq<ProvisionStep>, st: State)
    requires Inv(steps, st) && |st.sorted| == |steps|
    ensures DistinctIds(steps) && multiset(st.sorted) == multiset(Ids(steps))
  {
    StackEmpties(steps, st);
    assert st.sorted + st.ready == st.sorted;
    NoDupByCardinality(Ids(steps));
    NoDupFits(st.sorted, Elems(Ids(steps)));
    SameElementsSameMultiset(st.sorted, Ids(steps));
  }

  lemma ComesBefore(steps: seq<ProvisionStep>, st: State, i: nat, j: nat)
    requires Inv(steps, st) && i < |st.sorted| && j < |st.sorted| && Needs(steps, st.sorted[i], st.sorted[j])
    ensures j < i
  {
    NeedsIsDependency(steps, st.sorted[i], st.sorted[j]);
    var k :| 0 <= k < i && st.sorted[k] == st.sorted[j];
    assert (st.sorted + st.ready)[k] == (st.sorted + st.ready)[j];
  }

  /** A dependency of a sorted step was sorted before it. */
  lemma SortedBefore(steps: seq<ProvisionStep>, st: State, a: StepId, b: StepId)
    requires Inv(steps, st) && a in st.sorted && Needs(steps, a, b)
    ensures b in st.sorted && PositionIn(st.sorted, b) < PositionIn(st.sorted, a)
  {
    NeedsIsDependency(steps, a, b);
    assert b in st.sorted[..PositionIn(st.sorted, a)];
    ComesBefore(steps, st, PositionIn(st.sorted, a), PositionIn(st.sorted, b));
  }

  ghost function PositionIn(order: seq<StepId>, id: StepId): (p: nat)
    requires id in order
    ensures p < |order| && order[p] == id
  {
    var p :| 0 <= p < |order| && order[p] == id; p
  }

  lemma {:induction false} CycleDescends(steps: seq<ProvisionStep>, st: State, c: seq<StepId>, n: nat)
    requires Inv(steps, st) && Elems(st.sorted) == Elems(Ids(steps)) && IsCycle(steps, c) && n < |c|
    ensures c[0] in st.sorted && c[n] in st.sorted
    ensures n > 0 ==> PositionIn(st.sorted, c[n]) < PositionIn(st.sorted, c[0])
  {
    if n == 0 {
      NeedsIsDependency(steps, c[0], c[1]);
      assert c[0] in Elems(st.sorted);
    } else {
      CycleDescends(steps, st, c, n - 1);
      SortedBefore(steps, st, c[n - 1], c[n]);
    }
  }

  /** A plan that has a topological order has no cycle. */
  lemma OrderExcludesCycles(steps: seq<ProvisionStep>, order: seq<StepId>)
    requires IsTopologicalOrder(steps, order)
    ensures Acyclic(steps)
  {
    forall c | IsCycle(steps, c) ensures false {
      CycleGoesBack(steps, order, c, |c| - 1);
    }
  }

  lemma NeededIsListed(steps: seq<ProvisionStep>, order: seq<StepId>, c: seq<StepId>, i: nat)
    requires IsTopologicalOrder(steps, order) && IsCycle(steps, c) && i < |c|
    ensures c[i] in order
  {
    var k := if i == |c| - 1 then 0 else i;
    assert Needs(steps, c[k], c[k + 1]);
    NeedsIsDependency(steps, c[k], c[k + 1]);
    assert c[i] in multiset(Ids(steps));
    assert c[i] in multiset(order);
  }

  lemma {:induction false} CycleGoesBack(steps: seq<ProvisionStep>, order: seq<StepId>, c: seq<StepId>, n: nat)
    requires IsTopologicalOrder(steps, order) && IsCycle(steps, c) && n < |c|
    ensures c[0] in order && c[n] in order
    ensures n > 0 ==> PositionIn(order, c[n]) < PositionIn(order, c[0])
  {
    NeededIsListed(steps, order, c, 0);
    NeededIsListed(steps, order, c, n);
    if n > 0 {
      NeededIsListed(steps, order, c, n - 1);
      CycleGoesBack(steps, order, c, n - 1);
      assert Needs(steps, c[n - 1], c[n]);
      var p, q := PositionIn(order, c[n - 1]), PositionIn(order, c[n]);
      assert Needs(steps, order[p], order[q]);
    }
  }

  /** When the stack runs dry early, some remaining step waits on another remaining step. */
  lemma StuckStepNeedsStuckStep(steps: seq<ProvisionStep>, st: State, v: StepId) returns (d: StepId)
    requires Known(steps) && Inv(steps, st) && st.ready == []
    requires v in Ids(steps) && v !in st.sorted
    ensures Needs(steps, v, d) && d in Ids(steps) && d !in st.sorted
  {
    assert v !in st.sorted + st.ready;
    PendingZero(DependenciesOf(steps, v), st.sorted);
    d :| d in DependenciesOf(steps, v) && d !in st.sorted;
    NeedsIsDependency(steps, v, d);
  }

  /** A dependency path that visits a step twice contains a cycle. */
  lemma RepeatedStepIsCycle(steps: seq<ProvisionStep>, path: seq<StepId>, i: nat, j: nat)
    requires DependencyPath(steps, path) && i < j < |path| && path[i] == path[j]
    ensures IsCycle(steps, path[i..j + 1])
  {
    var c := path[i..j + 1];
    forall k | 0 <= k < |c| - 1 ensures Needs(steps, c[k], c[k + 1]) {
      assert Needs(steps, path[i + k], path[i + k + 1]);
    }
  }

  /** A loop that ends without some step has met a real cycle. */
  lemma EarlyStopHasCycle(steps: seq<ProvisionStep>, st: State, v: StepId)
    requires Known(steps) && Inv(steps, st) && st.ready == [] && v in Ids(steps) && v !in st.sorted
    ensures !Acyclic(steps)
  {
    var stuck := (v: StepId) => v in Ids(steps) && v !in st.sorted;
    forall v | stuck(v) ensures NeedsAnother(steps, stuck, v) {
      var d := StuckStepNeedsStuckStep(steps, st, v);
      assert stuck(d);
    }
    NeedingForEverIsCycle(steps, stuck, v);
  }

  /** A dependency path longer than the plan contains a cycle. */
  lemma LongPathHasCycle(steps: seq<ProvisionStep>, path: seq<StepId>)
    requires DependencyPath(steps, path) && Elems(path) <= Elems(Ids(steps)) && |path| > |steps|
    ensures !Acyclic(steps)
  {
    if NoDup(path) {
      NoDupFits(path, Elems(Ids(steps)));
      ElemsSmaller(Ids(steps));
    }
    var i, j :| 0 <= i < j < |path| && path[i] == path[j];
    RepeatedStepIsCycle(steps, path, i, j);
  }

  /** The step needs one of the kind. */
  ghost predicate NeedsAnother(steps: seq<ProvisionStep>, p: StepId -> bool, v: StepId) {
    exists d :: Needs(steps, v, d) && p(d)
  }

  /** All of the kind are steps and need one of the kind. */
  ghost predicate AllNeedAnother(steps: seq<ProvisionStep>, p: StepId -> bool) {
    forall v {:trigger NeedsAnother(steps, p, v)} :: p(v) ==> v in Ids(steps) && NeedsAnother(steps, p, v)
  }

  lemma {:induction false} NeedingPath(steps: seq<ProvisionStep>, p: StepId -> bool, v: StepId, k: nat) returns (path: seq<StepId>)
    requires p(v) && AllNeedAnother(steps, p)
    ensures |path| == k + 1 && path[0] == v && DependencyPath(steps, path) && Elems(path) <= Elems(Ids(steps))
    decreases k
  {
    assert v in Ids(steps) by { assert NeedsAnother(steps, p, v); }
    if k == 0 {
      path := [v];
    } else {
      assert NeedsAnother(steps, p, v);
      var d :| Needs(steps, v, d) && p(d);
      var rest := NeedingPath(steps, p, d, k - 1);
      path := [v] + rest;
      forall i | 0 <= i < |path| - 1 ensures Needs(steps, path[i], path[i + 1]) {
        if i > 0 { assert Needs(steps, rest[i - 1], rest[i]); }
      }
      forall x | x in Elems(path) ensures x in Elems(Ids(steps)) { assert x == v || x in Elems(rest); }
    }
  }

  /** Steps of which each needs another of the kind cannot all be different: there is a cycle. */
  lemma NeedingForEverIsCycle(steps: seq<ProvisionStep>, p: StepId -> bool, v: StepId)
    requires p(v) && AllNeedAnother(steps, p)
    ensures !Acyclic(steps)
  {
    var path := NeedingPath(steps, p, v, |steps|);
    LongPathHasCycle(steps, path);
  }

  /** Unless some id that starts out ready is repeated, the loop pops every id once exactly when there is no cycle. */
  lemma KahnDecides(steps: seq<ProvisionStep>)
    requires RootsOnce(steps) && Known(steps)
    ensures var st := Pops(steps, |steps|);
      && st.ready == [] && NoDup(st.sorted)
      && (Elems(st.sorted) == Elems(Ids(steps)) <==> Acyclic(steps))
  {
    PopsInv(steps, |steps|);
    RootsOnceEnds(steps);
    EndDecides(steps, Pops(steps, |steps|));
  }

  lemma EndDecides(steps: seq<ProvisionStep>, st: State)
    requires Known(steps) && Inv(steps, st) && st.ready == []
    ensures NoDup(st.sorted) && (Elems(st.sorted) == Elems(Ids(steps)) <==> Acyclic(steps))
  {
    assert st.sorted + st.ready == st.sorted;
    if Elems(st.sorted) == Elems(Ids(steps)) {
      AllSortedExcludesCycles(steps, st);
    } else {
      var v :| v in Elems(Ids(steps)) && v !in Elems(st.sorted);
      EarlyStopHasCycle(steps, st, v);
    }
  }

  lemma AllSortedExcludesCycles(steps: seq<ProvisionStep>, st: State)
    requires Inv(steps, st) && Elems(st.sorted) == Elems(Ids(steps))
    ensures Acyclic(steps)
  {
    forall c | IsCycle(steps, c) ensures false {
      CycleDescends(steps, st, c, |c| - 1);
    }
  }

  /** The loop orders as many steps as the plan has exactly when the ids are distinct and there is no cycle. */
  lemma KahnOrders(steps: seq<ProvisionStep>)
    requires RootsOnce(steps) && Known(steps)
    ensures |KahnOrder(steps)| == |steps| <==> DistinctIds(steps) && Acyclic(steps)
    ensures |KahnOrder(steps)| == |steps| ==> IsTopologicalOrder(steps, KahnOrder(steps))
  {
    KahnDecides(steps);
    PopsInv(steps, |steps|);
    var st := Pops(steps, |steps|);
    if |st.sorted| == |steps| {
      FullOrderIsTopological(steps, st);
      NoDupCardinality(Ids(steps));
      StackEmpties(steps, st);
      NoDupFits(st.sorted, Elems(Ids(steps)));
    } else if DistinctIds(steps) && Acyclic(steps) {
      NoDupCardinality(Ids(steps));
      NoDupCardinality(st.sorted);
    }
  }

  lemma {:induction false} PopsKeep(steps: seq<ProvisionStep>, inv: State -> bool, n: nat, m: nat)
    requires n <= m && inv(Pops(steps, n))
    requires forall st {:trigger Pop(steps, st)} :: inv(st) && st.ready != [] ==> inv(Pop(steps, st))
    ensures inv(Pops(steps, m))
    decreases m
  {
    if n < m {
      PopsKeep(steps, inv, n, m - 1);
    }
  }

  lemma PopsSettle(steps: seq<ProvisionStep>, n: nat, m: nat)
    requires n <= m && Pops(steps, n).ready == []
    ensures Pops(steps, m) == Pops(steps, n)
  {
    var settled: State -> bool := st => st == Pops(steps, n);
    PopsKeep(steps, settled, n, m);
    assert settled(Pops(steps, m));
  }

  lemma {:induction false} SortedGrows(steps: seq<ProvisionStep>, n: nat, m: nat)
    requires n <= m
    ensures Pops(steps, n).sorted <= Pops(steps, m).sorted
    decreases m
  {
    if n < m { SortedGrows(steps, n, m - 1); }
  }

  /** The loop comes to its end. With repeated ids it may not: see `SortLoop`. */
  ghost predicate LoopEnds(steps: seq<ProvisionStep>) { exists n: nat :: Pops(steps, n).ready == [] }

  lemma RootsOnceEnds(steps: seq<ProvisionStep>)
    requires RootsOnce(steps)
    ensures LoopEnds(steps) && Pops(steps, |steps|).ready == []
  {
    PopsInv(steps, |steps|);
    StackEmpties(steps, Pops(steps, |steps|));
  }

  /** The loop has ended after as many turns as there are steps, not before: the length test at its end passes. */
  ghost predicate PassesTest(steps: seq<ProvisionStep>) {
    Pops(steps, |steps|).ready == [] && |KahnOrder(steps)| == |steps|
  }

  lemma {:induction false} TurnsAreSorted(steps: seq<ProvisionStep>, n: nat)
    requires n == 0 || Pops(steps, n - 1).ready != []
    ensures |Pops(steps, n).sorted| == n
  {
    if n > 1 {
      TurnsAreSorted(steps, n - 1);
    }
  }

  lemma LoopTurn(steps: seq<ProvisionStep>, n: nat, end: nat)
    requires Pops(steps, n).ready != [] && Pops(steps, end).ready == []
    ensures n < end && Pops(steps, n + 1) == Pop(steps, Pops(steps, n))
  {
    if end <= n { PopsSettle(steps, end, n); }
  }

  lemma LoopEnd(steps: seq<ProvisionStep>, n: nat)
    requires Pops(steps, n).ready == [] && |Pops(steps, n).sorted| == n
    ensures n == |steps| <==> PassesTest(steps)
  {
    if PassesTest(steps) {
      if n <= |steps| { PopsSettle(steps, n, |steps|); } else { PopsSettle(steps, |steps|, n); }
    }
  }

  // ---- the imperative sorter ----

  function Listed(dependents: map<StepId, seq<StepId>>, on: StepId): seq<StepId> {
    if on in dependents then dependents[on] else []
  }

  /** The counters and lists after the edges of `steps[..i]` and the first `j` edges of `step` are recorded. */
  ghost predicate Counted(before: seq<ProvisionStep>, step: StepId, deps: seq<StepId>, ids: set<StepId>,
                          inDegree: map<StepId, nat>, dependents: map<StepId, seq<StepId>>) {
    && inDegree.Keys == ids
    && (forall id :: id in inDegree ==> inDegree[id] == InDegree(before, id) + if id == step then |deps| else 0)
    && (forall on :: Listed(dependents, on) == Dependents(before, on) + DependentEntries(step, deps, on))
    && (forall d :: d in deps ==> d in ids)
  }

  lemma CountedKeys(before: seq<ProvisionStep>, step: StepId, deps: seq<StepId>, ids: set<StepId>,
                    inDegree: map<StepId, nat>, dependents: map<StepId, seq<StepId>>)
    requires Counted(before, step, deps, ids, inDegree, dependents)
    ensures inDegree.Keys == ids && forall d :: d in deps ==> d in ids
  {
  }

  lemma CountedStep(before: seq<ProvisionStep>, step: ProvisionStep, ids: set<StepId>,
                    inDegree: map<StepId, nat>, dependents: map<StepId, seq<StepId>>)
    requires Counted(before, step.id, step.dependsOn, ids, inDegree, dependents)
    ensures Counted(before + [step], "", [], ids, inDegree, dependents)
  {
    var all := before + [step];
    assert all[..|all| - 1] == before;
    forall on ensures Listed(dependents, on) == Dependents(all, on) + DependentEntries("", [], on) {
      assert Dependents(all, on) + [] == Dependents(all, on);
    }
  }

  lemma CountedStart(before: seq<ProvisionStep>, step: StepId, ids: set<StepId>,
                     inDegree: map<StepId, nat>, dependents: map<StepId, seq<StepId>>)
    requires Counted(before, "", [], ids, inDegree, dependents)
    ensures Counted(before, step, [], ids, inDegree, dependents)
  {
    forall on ensures Listed(dependents, on) == Dependents(before, on) + DependentEntries(step, [], on) {
      assert Listed(dependents, on) == Dependents(before, on) + DependentEntries("", [], on);
    }
  }

  lemma ListedEdge(before: seq<StepId>, step: StepId, deps: seq<StepId>, dep: StepId, dependents: map<StepId, seq<StepId>>, on: StepId)
    requires Listed(dependents, on) == before + DependentEntries(step, deps, on)
    ensures Listed(dependents[dep := Listed(dependents, dep) + [step]], on) == before + DependentEntries(step, deps + [dep], on)
  {
    EntriesSnoc(step, deps, dep, on);
    if on == dep { ConcatAssociates(before, DependentEntries(step, deps, on), [step]); }
  }

  lemma CountedEdge(before: seq<ProvisionStep>, step: StepId, deps: seq<StepId>, dep: StepId, ids: set<StepId>,
                    inDegree: map<StepId, nat>, dependents: map<StepId, seq<StepId>>)
    requires step in ids && dep in ids && Counted(before, step, deps, ids, inDegree, dependents)
    ensures Counted(before, step, deps + [dep], ids, inDegree[step := inDegree[step] + 1],
                    dependents[dep := Listed(dependents, dep) + [step]])
  {
    var dependents' := dependents[dep := Listed(dependents, dep) + [step]];
    forall on ensures Listed(dependents', on) == Dependents(before, on) + DependentEntries(step, deps + [dep], on) {
      ListedEdge(Dependents(before, on), step, deps, dep, dependents, on);
    }
  }

  lemma UnknownIsFirst(deps: seq<StepId>, j: nat, done: seq<StepId>, ids: set<StepId>)
    requires j < |deps| && done == deps[..j] && deps[j] !in ids && forall d :: d in done ==> d in ids
    ensures FirstUnknown(deps, ids, deps[j])
  {
    assert forall i :: 0 <= i < j ==> deps[i] == done[i];
  }

  /** Record the dependency entries of one step, refusing the first that names no step. */
  method CountStep(ghost before: seq<ProvisionStep>, step: ProvisionStep, ghost ids: set<StepId>,
                   inDegree0: map<StepId, nat>, dependents0: map<StepId, seq<StepId>>)
    returns (unknown: Option<StepId>, inDegree: map<StepId, nat>, dependents: map<StepId, seq<StepId>>)
    requires step.id in ids && Counted(before, "", [], ids, inDegree0, dependents0)
    ensures unknown.None? <==> forall d :: d in step.dependsOn ==> d in ids
    ensures unknown.None? ==> Counted(before + [step], "", [], ids, inDegree, dependents)
    ensures unknown.Some? ==> FirstUnknown(step.dependsOn, ids, unknown.value)
  {
    inDegree, dependents := inDegree0, dependents0;
    var deps := step.dependsOn;
    CountedStart(before, step.id, ids, inDegree, dependents);
    ghost var done: seq<StepId> := [];
    for j := 0 to |deps|
      invariant done == deps[..j] && Counted(before, step.id, done, ids, inDegree, dependents)
    {
      CountedKeys(before, step.id, done, ids, inDegree, dependents);
      var dep := deps[j];
      if dep !in inDegree {
        UnknownIsFirst(deps, j, done, ids);
        return Some(dep), inDegree, dependents;
      }
      CountedEdge(before, step.id, done, dep, ids, inDegree, dependents);
      done := done + [dep];
      dependents := dependents[dep := Listed(dependents, dep) + [step.id]];
      inDegree := inDegree[step.id := inDegree[step.id] + 1];
    }
    assert done == deps;
    CountedKeys(before, step.id, done, ids, inDegree, dependents);
    CountedStep(before, step, ids, inDegree, dependents);
    return None, inDegree, dependents;
  }

  method ZeroCounters(steps: seq<ProvisionStep>) returns (inDegree: map<StepId, nat>)
    ensures inDegree.Keys == Elems(Ids(steps)) && forall id :: id in inDegree ==> inDegree[id] == 0
  {
    inDegree := map[];
    for i := 0 to |steps|
      invariant inDegree.Keys == Elems(Ids(steps)[..i])
      invariant forall id :: id in inDegree ==> inDegree[id] == 0
    {
      assert Ids(steps)[..i + 1] == Ids(steps)[..i] + [steps[i].id];
      if steps[i].id !in inDegree {
        inDegree := inDegree[steps[i].id := 0];
      }
    }
    assert Ids(steps)[..|steps|] == Ids(steps);
  }

  ghost predicate KnownSoFar(steps: seq<ProvisionStep>, n: nat)
    requires n <= |steps|
  {
    forall k, d :: 0 <= k < n && d in steps[k].dependsOn ==> d in Ids(steps)
  }

  /** The first entry of a list that is none of the ids. */
  ghost predicate FirstUnknown(deps: seq<StepId>, ids: set<StepId>, dep: StepId) {
    dep !in ids && exists j :: 0 <= j < |deps| && deps[j] == dep && forall i :: 0 <= i < j ==> deps[i] in ids
  }

  /** The error names the first step of the plan with an unknown dependency, and the first such dependency of it. */
  ghost predicate NamesTheFault(steps: seq<ProvisionStep>, error: PlanError) {
    error.UnknownDependency? && exists k :: FaultAt(steps, k, error.step, error.dependency)
  }

  ghost predicate FaultAt(steps: seq<ProvisionStep>, k: int, step: StepId, dep: StepId) {
    && 0 <= k < |steps| && KnownSoFar(steps, k)
    && steps[k].id == step && FirstUnknown(steps[k].dependsOn, Elems(Ids(steps)), dep)
  }

  /** What step `i` contributes to the dependencies being known. */
  lemma KnownNext(steps: seq<ProvisionStep>, i: nat)
    requires i <= |steps|
    ensures i == 0 ==> KnownSoFar(steps, 0)
    ensures i == |steps| && KnownSoFar(steps, i) ==> Known(steps)
    ensures i < |steps| ==> steps[i].id in Elems(Ids(steps))
    ensures i < |steps| && KnownSoFar(steps, i) && (forall d :: d in steps[i].dependsOn ==> d in Elems(Ids(steps))) ==>
      KnownSoFar(steps, i + 1)
  {
    if i < |steps| { assert Ids(steps)[i] == steps[i].id; }
  }

  lemma FaultFound(steps: seq<ProvisionStep>, i: nat, d: StepId)
    requires i < |steps| && KnownSoFar(steps, i) && FirstUnknown(steps[i].dependsOn, Elems(Ids(steps)), d)
    ensures !Known(steps) && NamesTheFault(steps, UnknownDependency(steps[i].id, d))
  {
    assert FaultAt(steps, i, steps[i].id, d);
    assert d in steps[i].dependsOn;
  }

  /** The two counting loops: counters start at zero, then every dependency entry is recorded once. */
  method CountEdges(steps: seq<ProvisionStep>)
    returns (r: Result<(map<StepId, nat>, map<StepId, seq<StepId>>), PlanError>)
    ensures r.Success? <==> Known(steps)
    ensures r.Success? ==> r.value.0 == Initial(steps).degree
    ensures r.Success? ==> forall on :: Listed(r.value.1, on) == Dependents(steps, on)
    ensures r.Failure? ==> NamesTheFault(steps, r.error)
  {
    var zeros := ZeroCounters(steps);
    var error, inDegree, dependents := CountSteps(steps, zeros);
    if error.Some? {
      return Failure(error.value);
    }
    CountedIsInitial(steps, inDegree, dependents);
    return Success((inDegree, dependents));
  }

  /** The second loop, over the steps. */
  method CountSteps(steps: seq<ProvisionStep>, zeros: map<StepId, nat>)
    returns (error: Option<PlanError>, inDegree: map<StepId, nat>, dependents: map<StepId, seq<StepId>>)
    requires zeros.Keys == Elems(Ids(steps)) && forall id :: id in zeros ==> zeros[id] == 0
    ensures error.None? ==> Known(steps) && Counted(steps, "", [], Elems(Ids(steps)), inDegree, dependents)
    ensures error.Some? ==> !Known(steps) && NamesTheFault(steps, error.value)
  {
    ghost var ids, done := Elems(Ids(steps)), [];
    inDegree, dependents := zeros, map[];
    KnownNext(steps, 0);
    for i := 0 to |steps|
      invariant done == steps[..i] && Counted(done, "", [], ids, inDegree, dependents)
      invariant KnownSoFar(steps, i)
    {
      KnownNext(steps, i);
      var unknown;
      unknown, inDegree, dependents := CountStep(done, steps[i], ids, inDegree, dependents);
      done := done + [steps[i]];
      if unknown.Some? {
        FaultFound(steps, i, unknown.value);
        return Some(UnknownDependency(steps[i].id, unknown.value)), inDegree, dependents;
      }
    }
    assert done == steps;
    KnownNext(steps, |steps|);
    return None, inDegree, dependents;
  }

  lemma CountedIsInitial(steps: seq<ProvisionStep>, inDegree: map<StepId, nat>, dependents: map<StepId, seq<StepId>>)
    requires Counted(steps, "", [], Elems(Ids(steps)), inDegree, dependents)
    ensures inDegree == Initial(steps).degree
    ensures forall on :: Listed(dependents, on) == Dependents(steps, on)
  {
    forall on ensures Listed(dependents, on) == Dependents(steps, on) {
      assert Listed(dependents, on) == Dependents(steps, on) + DependentEntries("", [], on);
    }
    assert inDegree.Keys == Initial(steps).degree.Keys;
  }

  /** The ids with no dependencies, in plan order. */
  method CollectReady(steps: seq<ProvisionStep>, inDegree: map<StepId, nat>) returns (ready: seq<StepId>)
    requires inDegree.Keys == Elems(Ids(steps))
    ensures ready == InitialReady(steps, inDegree)
  {
    ready := [];
    for i := 0 to |steps|
      invariant ready == InitialReady(steps[..i], inDegree)
    {
      assert Ids(steps)[i] == steps[i].id;
      assert steps[..i + 1][..i] == steps[..i];
      if inDegree[steps[i].id] == 0 {
        ready := ready + [steps[i].id];
      }
    }
    assert steps[..|steps|] == steps;
  }

  /** Decrement the counter of every dependent, not below zero; one that is zero then joins the stack. */
  method Release(list: seq<StepId>, inDegree0: map<StepId, nat>, ready0: seq<StepId>)
    returns (inDegree: map<StepId, nat>, ready: seq<StepId>)
    ensures (inDegree, ready) == Relax(list, inDegree0, ready0)
  {
    inDegree, ready := inDegree0, ready0;
    assert list[0..] == list;
    for k := 0 to |list|
      invariant Relax(list[k..], inDegree, ready) == Relax(list, inDegree0, ready0)
    {
      var d := list[k];
      assert list[k..][1..] == list[k + 1..];
      if d in inDegree {
        inDegree := inDegree[d := if inDegree[d] > 0 then inDegree[d] - 1 else 0];
        if inDegree[d] == 0 {
          ready := ready + [d];
        }
      }
    }
    assert list[|list|..] == [];
  }

  /** Order the steps so that dependencies come first, or say why that is impossible. */
  method Sort(steps: seq<ProvisionStep>) returns (r: Result<seq<StepId>, PlanError>)
    requires LoopEnds(steps)
    ensures r.Success? <==> Known(steps) && PassesTest(steps)
    ensures r.Success? ==> r.value == KahnOrder(steps)
    ensures Known(steps) && !PassesTest(steps) ==> r == Failure(DependencyCycle)
    ensures !Known(steps) ==> NamesTheFault(steps, r.error)
    ensures RootsOnce(steps) ==> (r.Success? <==> Known(steps) && DistinctIds(steps) && Acyclic(steps))
    ensures RootsOnce(steps) && r.Success? ==> IsTopologicalOrder(steps, r.value)
  {
    var counted := CountEdges(steps);
    if counted.Failure? {
      return Failure(counted.error);
    }
    if RootsOnce(steps) {
      RootsOnceEnds(steps);
      KahnOrders(steps);
    }
    r := PopAll(steps, counted.value.0, counted.value.1);
  }

  /** The main loop and the length test after it. */
  method PopAll(steps: seq<ProvisionStep>, inDegree0: map<StepId, nat>, dependents: map<StepId, seq<StepId>>)
    returns (r: Result<seq<StepId>, PlanError>)
    requires LoopEnds(steps)
    requires inDegree0 == Initial(steps).degree && forall on :: Listed(dependents, on) == Dependents(steps, on)
    ensures r == if PassesTest(steps) then Success(KahnOrder(steps)) else Failure(DependencyCycle)
  {
    var inDegree := inDegree0;
    var ready := CollectReady(steps, inDegree);
    var sorted: seq<StepId> := [];
    ghost var end: nat :| Pops(steps, end).ready == [];
    while ready != []
      invariant State(inDegree, ready, sorted) == Pops(steps, |sorted|)
      decreases end - |sorted|
    {
      LoopTurn(steps, |sorted|, end);
      var next := ready[|ready| - 1];
      sorted := sorted + [next];
      inDegree, ready := Release(Listed(dependents, next), inDegree, ready[..|ready| - 1]);
    }
    LoopEnd(steps, |sorted|);
    if |sorted| != |steps| {
      return Failure(DependencyCycle);
    }
    return Success(sorted);
  }
}
