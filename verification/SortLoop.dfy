/** The sort loop on any plan, repeated ids included: how often each id is popped, and when the loop ends. */
module SortLoop {
  import opened Common
  import opened Plan
  import opened TopologicalSort

  // ---- how often an id is popped ----

  /** The decrements of the counter of `v` by the pops so far. */
  function Decrements(steps: seq<ProvisionStep>, sorted: seq<StepId>, v: StepId): nat {
    if sorted == [] then 0
    else Decrements(steps, sorted[..|sorted| - 1], v) + multiset(Dependents(steps, sorted[|sorted| - 1]))[v]
  }

  /** How often `v` starts out on the stack. */
  function Roots(steps: seq<ProvisionStep>, v: StepId): nat {
    if InDegree(steps, v) == 0 then multiset(Ids(steps))[v] else 0
  }

  /** Every counter and every number of pushes is accounted for by the pops so far. */
  ghost predicate BalancedAt(steps: seq<ProvisionStep>, st: State, v: StepId) {
    && (v in st.degree <==> v in Ids(steps))
    && (v in st.degree ==> st.degree[v] == Less(InDegree(steps, v), Decrements(steps, st.sorted, v)))
    && multiset(st.sorted)[v] + multiset(st.ready)[v]
       == if v in Ids(steps) then Roots(steps, v) + Zeroings(InDegree(steps, v), Decrements(steps, st.sorted, v)) else 0
  }

  lemma {:induction false} InitialReadyCount(steps: seq<ProvisionStep>, degree: map<StepId, nat>, v: StepId)
    ensures multiset(InitialReady(steps, degree))[v] == if v in degree && degree[v] == 0 then multiset(Ids(steps))[v] else 0
  {
    if steps != [] {
      IdsSnoc(steps);
      InitialReadyCount(steps[..|steps| - 1], degree, v);
    }
  }

  lemma InitialBalanced(steps: seq<ProvisionStep>, v: StepId)
    ensures BalancedAt(steps, Initial(steps), v)
  {
    InitialReadyCount(steps, Initial(steps).degree, v);
    assert v in Ids(steps) <==> v in multiset(Ids(steps));
  }

  lemma PopBalanced(steps: seq<ProvisionStep>, st: State, v: StepId)
    requires st.ready != [] && BalancedAt(steps, st, v)
    ensures BalancedAt(steps, Pop(steps, st), v)
  {
    var n := |st.ready| - 1;
    var next, kept := st.ready[n], st.ready[..n];
    var list := Dependents(steps, next);
    RelaxCounts(list, st.degree, kept, v);
    assert st.ready == kept + [next];
    assert (st.sorted + [next])[..|st.sorted|] == st.sorted;
    ZeroingsAdd(InDegree(steps, v), Decrements(steps, st.sorted, v), multiset(list)[v]);
  }

  /** After any number of turns: an id was pushed as often as it starts out ready and its counter was left at zero. */
  lemma PopsBalanced(steps: seq<ProvisionStep>, n: nat, v: StepId)
    ensures BalancedAt(steps, Pops(steps, n), v)
  {
    var inv: State -> bool := st => BalancedAt(steps, st, v);
    InitialBalanced(steps, v);
    forall st | inv(st) && st.ready != [] ensures inv(Pop(steps, st)) { PopBalanced(steps, st, v); }
    PopsKeep(steps, inv, 0, n);
    assert inv(Pops(steps, n));
  }

  lemma WaitingIsNew(steps: seq<ProvisionStep>, st: State, v: StepId)
    requires BalancedAt(steps, st, v) && v in st.degree && st.degree[v] > 0
    ensures v !in st.sorted && v !in st.ready
  {
    assert v in st.sorted <==> multiset(st.sorted)[v] > 0;
    assert v in st.ready <==> multiset(st.ready)[v] > 0;
  }

  // ---- a loop that ends popped no whole cycle ----

  /** The last place of `x`, or -1. */
  function LastAt(s: seq<StepId>, x: StepId): (i: int)
    ensures -1 <= i < |s| && (i >= 0 <==> x in s)
  {
    if s == [] then -1 else if s[|s| - 1] == x then |s| - 1 else LastAt(s[..|s| - 1], x)
  }

  lemma LastAtNext(s: seq<StepId>, next: StepId, x: StepId)
    ensures LastAt(s + [next], x) == if x == next then |s| else LastAt(s, x)
  {
    assert (s + [next])[..|s|] == s;
  }

  /** A step whose counter is spent comes again, or came already, after every pop of what it needs. */
  ghost predicate Echoed(steps: seq<ProvisionStep>, st: State, v: StepId, on: StepId) {
    Needs(steps, v, on) && on in st.sorted && v in st.degree && st.degree[v] == 0 ==>
      v in st.ready || LastAt(st.sorted, v) > LastAt(st.sorted, on)
  }

  /** One pop, for one id: what is decremented to zero is pushed, and what else is on the stack stays. */
  lemma PopFor(steps: seq<ProvisionStep>, st: State, v: StepId)
    requires st.ready != []
    ensures var next, st' := st.ready[|st.ready| - 1], Pop(steps, st);
      && st'.sorted == st.sorted + [next] && st'.degree.Keys == st.degree.Keys
      && (v in st.degree && st'.degree[v] == 0 && (v in Dependents(steps, next) || st.degree[v] > 0) ==> v in st'.ready)
      && (v in st.ready && v != next ==> v in st'.ready)
  {
    var n := |st.ready| - 1;
    var next, kept := st.ready[n], st.ready[..n];
    var list := Dependents(steps, next);
    RelaxCounts(list, st.degree, kept, v);
    assert st.ready == kept + [next];
    assert v in list <==> multiset(list)[v] > 0;
    assert v in kept <==> multiset(kept)[v] > 0;
    assert v in Pop(steps, st).ready <==> multiset(Pop(steps, st).ready)[v] > 0;
  }

  lemma PopEchoed(steps: seq<ProvisionStep>, st: State, v: StepId, on: StepId)
    requires st.ready != [] && Echoed(steps, st, v, on)
    ensures Echoed(steps, Pop(steps, st), v, on)
  {
    var next := st.ready[|st.ready| - 1];
    PopFor(steps, st, v);
    LastAtNext(st.sorted, next, v);
    LastAtNext(st.sorted, next, on);
    if Needs(steps, v, on) && on == next { NeededListsDependent(steps, v, on); }
  }

  lemma NeededListsDependent(steps: seq<ProvisionStep>, v: StepId, on: StepId)
    requires Needs(steps, v, on)
    ensures v in Dependents(steps, on)
  {
    NeedsIsDependency(steps, v, on);
    DependentsMirrorDependencies(steps, v, on);
    assert on in multiset(DependenciesOf(steps, v));
    assert v in multiset(Dependents(steps, on));
  }

  lemma PopsEchoed(steps: seq<ProvisionStep>, n: nat, v: StepId, on: StepId)
    ensures Echoed(steps, Pops(steps, n), v, on)
  {
    var inv: State -> bool := st => Echoed(steps, st, v, on);
    assert inv(Pops(steps, 0));
    forall st | inv(st) && st.ready != [] ensures inv(Pop(steps, st)) { PopEchoed(steps, st, v, on); }
    PopsKeep(steps, inv, 0, n);
    assert inv(Pops(steps, n));
  }

  lemma {:induction false} CycleComesLater(steps: seq<ProvisionStep>, n: nat, c: seq<StepId>, i: nat)
    requires Pops(steps, n).ready == [] && IsCycle(steps, c) && 0 < i < |c|
    requires forall k :: 0 <= k < |c| ==> c[k] in Pops(steps, n).sorted
    ensures LastAt(Pops(steps, n).sorted, c[i]) < LastAt(Pops(steps, n).sorted, c[0])
  {
    var st := Pops(steps, n);
    if i > 1 { CycleComesLater(steps, n, c, i - 1); }
    var v, on := c[i - 1], c[i];
    assert Needs(steps, v, on);
    PopsEchoed(steps, n, v, on);
    PopsBalanced(steps, n, v);
    NeedsIsDependency(steps, v, on);
    if st.degree[v] > 0 { WaitingIsNew(steps, st, v); }
  }

  // ---- popped ids ----

  ghost predicate Popped(steps: seq<ProvisionStep>, id: StepId) { exists n: nat :: id in Pops(steps, n).sorted }

  ghost predicate IsPoppedCycle(steps: seq<ProvisionStep>, c: seq<StepId>) {
    IsCycle(steps, c) && forall i :: 0 <= i < |c| ==> Popped(steps, c[i])
  }

  lemma PoppedByEnd(steps: seq<ProvisionStep>, n: nat, id: StepId)
    requires Pops(steps, n).ready == []
    ensures Popped(steps, id) <==> id in Pops(steps, n).sorted
  {
    if Popped(steps, id) {
      var m: nat :| id in Pops(steps, m).sorted;
      if m <= n { SortedGrows(steps, m, n); } else { PopsSettle(steps, n, m); }
    }
  }

  lemma PoppedIsStep(steps: seq<ProvisionStep>, id: StepId)
    requires Popped(steps, id)
    ensures id in Ids(steps)
  {
    var n: nat :| id in Pops(steps, n).sorted;
    PopsBalanced(steps, n, id);
    assert multiset(Pops(steps, n).sorted)[id] > 0;
  }

  lemma EndedPopsNoCycle(steps: seq<ProvisionStep>, n: nat, c: seq<StepId>)
    requires Pops(steps, n).ready == []
    ensures !IsPoppedCycle(steps, c)
  {
    if IsPoppedCycle(steps, c) {
      forall k | 0 <= k < |c| ensures c[k] in Pops(steps, n).sorted { PoppedByEnd(steps, n, c[k]); }
      CycleComesLater(steps, n, c, |c| - 1);
    }
  }

  // ---- a loop that pops no whole cycle ends ----

  /** The pops a pop of `v` can lead to, within `room` and up to depth `k`: its dependents, theirs, and so on. */
  function Weight(steps: seq<ProvisionStep>, room: set<StepId>, k: nat, v: StepId): nat
    decreases k, 0
  {
    if k == 0 then 0 else 1 + Weights(steps, room, k - 1, Dependents(steps, v))
  }

  function Weights(steps: seq<ProvisionStep>, room: set<StepId>, k: nat, list: seq<StepId>): nat
    decreases k, |list| + 1
  {
    if list == [] then 0
    else
      var last := list[|list| - 1];
      Weights(steps, room, k, list[..|list| - 1]) + if last in room then Weight(steps, room, k, last) else 0
  }

  lemma {:induction false} WeightsConcat(steps: seq<ProvisionStep>, room: set<StepId>, k: nat, a: seq<StepId>, b: seq<StepId>)
    ensures Weights(steps, room, k, a + b) == Weights(steps, room, k, a) + Weights(steps, room, k, b)
    decreases |b|
  {
    if b == [] {
      assert a + b == a;
    } else {
      assert (a + b)[..|a + b| - 1] == a + b[..|b| - 1];
      WeightsConcat(steps, room, k, a, b[..|b| - 1]);
    }
  }

  lemma WeightsOne(steps: seq<ProvisionStep>, room: set<StepId>, k: nat, x: StepId)
    ensures Weights(steps, room, k, [x]) == if x in room then Weight(steps, room, k, x) else 0
  {
    assert [x][..0] == [];
  }

  /** What a relaxation pushes weighs no more than the list it relaxes. */
  lemma {:induction false} RelaxWeighs(steps: seq<ProvisionStep>, room: set<StepId>, k: nat,
                                       list: seq<StepId>, degree: map<StepId, nat>, ready: seq<StepId>)
    ensures Weights(steps, room, k, Relax(list, degree, ready).1) <= Weights(steps, room, k, ready) + Weights(steps, room, k, list)
    decreases |list|
  {
    if list != [] {
      var d, rest := list[0], list[1..];
      assert list == [d] + rest;
      WeightsConcat(steps, room, k, [d], rest);
      WeightsOne(steps, room, k, d);
      if d !in degree {
        RelaxWeighs(steps, room, k, rest, degree, ready);
      } else {
        var left := if degree[d] > 0 then degree[d] - 1 else 0;
        WeightsConcat(steps, room, k, ready, [d]);
        RelaxWeighs(steps, room, k, rest, degree[d := left], if left == 0 then ready + [d] else ready);
      }
    }
  }

  lemma {:induction false} HeavierOne(steps: seq<ProvisionStep>, room: set<StepId>, k: nat, list: seq<StepId>) returns (d: StepId)
    requires Weights(steps, room, k + 1, list) != Weights(steps, room, k, list)
    ensures d in list && d in room && Weight(steps, room, k + 1, d) != Weight(steps, room, k, d)
    decreases |list|
  {
    var front, last := list[..|list| - 1], list[|list| - 1];
    if Weights(steps, room, k + 1, front) != Weights(steps, room, k, front) {
      d := HeavierOne(steps, room, k, front);
    } else {
      d := last;
    }
  }

  /** A weight that still grows at depth `k` comes from a dependency path of that length inside the room. */
  lemma {:induction false} GrowingWeightIsPath(steps: seq<ProvisionStep>, room: set<StepId>, k: nat, v: StepId)
    returns (path: seq<StepId>)
    requires v in room && Weight(steps, room, k + 1, v) != Weight(steps, room, k, v)
    ensures |path| == k + 1 && path[k] == v && DependencyPath(steps, path) && Elems(path) <= room
    decreases k
  {
    if k == 0 {
      path := [v];
    } else {
      var d := HeavierOne(steps, room, k - 1, Dependents(steps, v));
      var above := GrowingWeightIsPath(steps, room, k - 1, d);
      DependentIsStep(steps, d, v);
      path := above + [v];
      forall i | 0 <= i < |path| - 1 ensures Needs(steps, path[i], path[i + 1]) {
        if i < k - 1 { assert Needs(steps, above[i], above[i + 1]); }
      }
      forall x | x in Elems(path) ensures x in room { assert x in Elems(above) || x == v; }
    }
  }

  ghost predicate HoldsNoCycle(steps: seq<ProvisionStep>, room: set<StepId>) {
    forall c :: IsCycle(steps, c) ==> !(Elems(c) <= room)
  }

  lemma WeightIsFull(steps: seq<ProvisionStep>, room: set<StepId>, v: StepId)
    requires HoldsNoCycle(steps, room) && v in room
    ensures Weight(steps, room, |room|, v) == 1 + Weights(steps, room, |room|, Dependents(steps, v))
  {
    if Weight(steps, room, |room| + 1, v) != Weight(steps, room, |room|, v) {
      var path := GrowingWeightIsPath(steps, room, |room|, v);
      if NoDup(path) { NoDupFits(path, room); }
      var i, j :| 0 <= i < j < |path| && path[i] == path[j];
      SliceStays(path, i, j + 1, room);
      RepeatedStepIsCycle(steps, path, i, j);
    }
  }

  lemma SliceStays(path: seq<StepId>, i: nat, j: nat, room: set<StepId>)
    requires i <= j <= |path| && Elems(path) <= room
    ensures Elems(path[i..j]) <= room
  {
    forall x | x in Elems(path[i..j]) ensures x in room { assert x in Elems(path); }
  }

  /** The ids the loop ever pops. */
  ghost function PoppedIds(steps: seq<ProvisionStep>): (room: set<StepId>)
    ensures forall id :: id in room <==> Popped(steps, id)
  {
    var room := set id | id in Elems(Ids(steps)) && Popped(steps, id);
    assert forall id :: Popped(steps, id) ==> id in room by {
      forall id | Popped(steps, id) ensures id in room { PoppedIsStep(steps, id); }
    }
    room
  }

  ghost function StackWeight(steps: seq<ProvisionStep>, st: State): nat {
    Weights(steps, PoppedIds(steps), |PoppedIds(steps)|, st.ready)
  }

  lemma TurnLightens(steps: seq<ProvisionStep>, n: nat)
    requires HoldsNoCycle(steps, PoppedIds(steps)) && Pops(steps, n).ready != []
    ensures StackWeight(steps, Pops(steps, n + 1)) < StackWeight(steps, Pops(steps, n))
  {
    var st, room := Pops(steps, n), PoppedIds(steps);
    var next, kept := st.ready[|st.ready| - 1], st.ready[..|st.ready| - 1];
    assert st.ready == kept + [next];
    assert next in Pops(steps, n + 1).sorted;
    WeightsConcat(steps, room, |room|, kept, [next]);
    WeightsOne(steps, room, |room|, next);
    WeightIsFull(steps, room, next);
    RelaxWeighs(steps, room, |room|, Dependents(steps, next), st.degree, kept);
  }

  lemma {:induction false} LightEnds(steps: seq<ProvisionStep>, n: nat)
    requires HoldsNoCycle(steps, PoppedIds(steps))
    ensures LoopEnds(steps)
    decreases StackWeight(steps, Pops(steps, n))
  {
    if Pops(steps, n).ready != [] {
      TurnLightens(steps, n);
      LightEnds(steps, n + 1);
    }
  }

  /** Whatever ids repeat, the loop runs for ever exactly when the ids it pops contain a dependency cycle. */
  lemma LoopEndsIff(steps: seq<ProvisionStep>)
    ensures LoopEnds(steps) <==> forall c :: !IsPoppedCycle(steps, c)
  {
    if LoopEnds(steps) {
      var n: nat :| Pops(steps, n).ready == [];
      forall c ensures !IsPoppedCycle(steps, c) { EndedPopsNoCycle(steps, n, c); }
    }
    if forall c :: !IsPoppedCycle(steps, c) {
      forall c | IsCycle(steps, c) ensures !(Elems(c) <= PoppedIds(steps)) {
        assert !IsPoppedCycle(steps, c);
        assert forall i :: 0 <= i < |c| ==> c[i] in Elems(c);
      }
      LightEnds(steps, 0);
    }
  }

  /** On a plan without a cycle the loop ends, whatever ids repeat. */
  lemma AcyclicEnds(steps: seq<ProvisionStep>)
    requires Acyclic(steps)
    ensures LoopEnds(steps)
  {
    LoopEndsIff(steps);
  }

  // ---- what the loop decides ----

  lemma PendingSame(deps: seq<StepId>, a: seq<StepId>, b: seq<StepId>)
    requires Elems(a) == Elems(b)
    ensures Pending(deps, a) == Pending(deps, b)
  {
    if deps != [] {
      PendingSame(deps[..|deps| - 1], a, b);
      var d := deps[|deps| - 1];
      assert d in a <==> d in Elems(a);
      assert d in b <==> d in Elems(b);
    }
  }

  /** Every dependency entry is pending or has been counted down. */
  lemma {:induction false} EntriesCovered(steps: seq<ProvisionStep>, sorted: seq<StepId>, v: StepId)
    ensures InDegree(steps, v) <= Pending(DependenciesOf(steps, v), sorted) + Decrements(steps, sorted, v)
    decreases |sorted|
  {
    var deps := DependenciesOf(steps, v);
    if sorted == [] {
      PendingAll(deps);
      DependentsMirrorDependencies(steps, v, v);
    } else {
      var front, x := sorted[..|sorted| - 1], sorted[|sorted| - 1];
      assert sorted == front + [x];
      EntriesCovered(steps, front, v);
      if x in front {
        assert Elems(sorted) == Elems(front) by { assert forall y :: y in sorted <==> y in front; }
        PendingSame(deps, sorted, front);
      } else {
        PendingAfter(deps, front, x);
        DependentsMirrorDependencies(steps, v, x);
      }
    }
  }

  /** Once the stack is empty, an id that was never popped needs another such id. */
  lemma UnpoppedNeedsUnpopped(steps: seq<ProvisionStep>, n: nat, v: StepId) returns (d: StepId)
    requires Pops(steps, n).ready == [] && v in Ids(steps) && v !in Pops(steps, n).sorted
    ensures Needs(steps, v, d) && d !in Pops(steps, n).sorted
  {
    var sorted := Pops(steps, n).sorted;
    PopsBalanced(steps, n, v);
    assert v in multiset(Ids(steps)) && v !in multiset(sorted);
    EntriesCovered(steps, sorted, v);
    PendingZero(DependenciesOf(steps, v), sorted);
    d :| d in DependenciesOf(steps, v) && d !in sorted;
    NeedsIsDependency(steps, v, d);
  }

  /** A loop that ends without some id has met a cycle. */
  lemma UnpoppedIsCycle(steps: seq<ProvisionStep>, n: nat, v: StepId)
    requires Known(steps) && Pops(steps, n).ready == [] && v in Ids(steps) && v !in Pops(steps, n).sorted
    ensures !Acyclic(steps)
  {
    var sorted := Pops(steps, n).sorted;
    var left := (v: StepId) => v in Ids(steps) && v !in sorted;
    forall v | left(v) ensures NeedsAnother(steps, left, v) {
      var d := UnpoppedNeedsUnpopped(steps, n, v);
      assert d in Ids(steps);
      assert left(d);
    }
    NeedingForEverIsCycle(steps, left, v);
  }

  /** For every plan with known dependencies: it has no cycle exactly when the loop ends and has popped every id. */
  lemma AcyclicIff(steps: seq<ProvisionStep>)
    requires Known(steps)
    ensures Acyclic(steps) <==> LoopEnds(steps) && forall id :: id in Ids(steps) ==> Popped(steps, id)
  {
    if Acyclic(steps) {
      AcyclicEnds(steps);
      var n: nat :| Pops(steps, n).ready == [];
      forall id | id in Ids(steps) ensures Popped(steps, id) {
        if id !in Pops(steps, n).sorted { UnpoppedIsCycle(steps, n, id); }
      }
    } else if LoopEnds(steps) {
      LoopEndsIff(steps);
      var c :| IsCycle(steps, c);
      assert !IsPoppedCycle(steps, c);
      var i :| 0 <= i < |c| && !Popped(steps, c[i]);
      CycleOfSteps(steps, c, i);
    }
  }

  lemma CycleOfSteps(steps: seq<ProvisionStep>, c: seq<StepId>, i: nat)
    requires IsCycle(steps, c) && i < |c|
    ensures c[i] in Ids(steps)
  {
    var k := if i == |c| - 1 then 0 else i;
    NeedsIsDependency(steps, c[k], c[k + 1]);
  }

  // ---- loops without end ----

  lemma {:induction false} DecrementsAtLeast(steps: seq<ProvisionStep>, sorted: seq<StepId>, v: StepId, on: StepId)
    requires Needs(steps, v, on)
    ensures Decrements(steps, sorted, v) >= multiset(sorted)[on]
    decreases |sorted|
  {
    if sorted != [] {
      var front, x := sorted[..|sorted| - 1], sorted[|sorted| - 1];
      assert sorted == front + [x];
      DecrementsAtLeast(steps, front, v, on);
      NeededListsDependent(steps, v, on);
      assert v in multiset(Dependents(steps, on));
    }
  }

  /** Once the stack is empty, a root listed that often has used up the counter of a step that needs it. */
  lemma RootDrains(steps: seq<ProvisionStep>, st: State, root: StepId, v: StepId)
    requires BalancedAt(steps, st, root) && BalancedAt(steps, st, v) && st.ready == []
    requires InDegree(steps, root) == 0 && root in Ids(steps) && v in Ids(steps) && Needs(steps, v, root)
    requires multiset(Ids(steps))[root] >= InDegree(steps, v) > 0
    ensures v in st.sorted
  {
    DecrementsAtLeast(steps, st.sorted, v, root);
    assert multiset(st.sorted)[v] > 0;
  }

  /** A repeated root can use up the counter of a step that also waits for itself: then the loop never ends. */
  lemma RepeatedRootLoopsForever(steps: seq<ProvisionStep>, root: StepId, v: StepId)
    requires InDegree(steps, root) == 0 && Needs(steps, v, root) && Needs(steps, v, v)
    requires multiset(Ids(steps))[root] >= InDegree(steps, v)
    ensures !LoopEnds(steps)
  {
    if n: nat :| Pops(steps, n).ready == [] {
      NeedsIsDependency(steps, v, v);
      DependentsMirrorDependencies(steps, v, v);
      assert root in multiset(Ids(steps));
      PopsBalanced(steps, n, root);
      PopsBalanced(steps, n, v);
      RootDrains(steps, Pops(steps, n), root, v);
      SelfNeedIsNotPopped(steps, n, v);
    }
  }

  lemma SelfNeedIsNotPopped(steps: seq<ProvisionStep>, n: nat, v: StepId)
    requires Pops(steps, n).ready == [] && Needs(steps, v, v)
    ensures v !in Pops(steps, n).sorted
  {
    PoppedByEnd(steps, n, v);
    EndedPopsNoCycle(steps, n, [v, v]);
  }

  function FileStep(id: StepId, dependsOn: seq<StepId>): ProvisionStep {
    ProvisionStep(id, Command(HelmRepoAddTraefik), dependsOn, NoVerify)
  }

  /** Two steps share the id `a`, and `b` needs both `a` and itself. */
  function ClashingPlan(): seq<ProvisionStep> {
    [] + [FileStep("a", [])] + [FileStep("a", [])] + [FileStep("b", ["a", "b"])]
  }

  lemma InDegreeSnoc(front: seq<ProvisionStep>, last: ProvisionStep, id: StepId)
    ensures InDegree(front + [last], id) == InDegree(front, id) + if last.id == id then |last.dependsOn| else 0
  {
    assert (front + [last])[..|front|] == front;
  }

  lemma ClashingDegree(id: StepId)
    ensures InDegree(ClashingPlan(), id) == if id == "b" then 2 else 0
  {
    var a := FileStep("a", []);
    InDegreeSnoc([], a, id);
    InDegreeSnoc([] + [a], a, id);
    InDegreeSnoc([] + [a] + [a], FileStep("b", ["a", "b"]), id);
  }

  lemma ClashingPlanLoopsForever()
    ensures !LoopEnds(ClashingPlan())
  {
    var p := ClashingPlan();
    var a := FileStep("a", []);
    assert p[0] == a && p[1] == a && Ids(p)[..2] == ["a", "a"];
    assert Ids(p) == ["a", "a"] + [Ids(p)[2]];
    ClashingDegree("a");
    ClashingDegree("b");
    assert "a"[0] != "b"[0];
    assert p[2].id == "b" && "a" in p[2].dependsOn && "b" in p[2].dependsOn;
    RepeatedRootLoopsForever(p, "a", "b");
  }
}
