/**
 * Plans with repeated ids, decided before the loop runs: the numbers of pops satisfy equations that mention the
 * plan alone. Their least solution is what the loop pops, and the loop ends when there is one.
 */
module SortCounts {
  import opened Common
  import opened Plan
  import opened TopologicalSort
  import opened SortLoop

  /** The decrements that reach the step with these entries when every id is popped as often as counted. */
  function Spent(deps: seq<StepId>, count: multiset<StepId>): nat {
    if deps == [] then 0 else Spent(deps[..|deps| - 1], count) + count[deps[|deps| - 1]]
  }

  /** How often the loop must pop `v` then: once for each start as a root and for each decrement that leaves zero. */
  function Due(steps: seq<ProvisionStep>, count: multiset<StepId>, v: StepId): nat {
    if v in Ids(steps) then Roots(steps, v) + Zeroings(InDegree(steps, v), Spent(DependenciesOf(steps, v), count)) else 0
  }

  /** A count of pops that brings about itself. */
  ghost predicate Settles(steps: seq<ProvisionStep>, count: multiset<StepId>) {
    forall v :: count[v] == Due(steps, count, v)
  }

  // ---- what the loop has popped, as a count ----

  lemma {:induction false} NothingSpent(deps: seq<StepId>)
    ensures Spent(deps, multiset{}) == 0
  {
    if deps != [] { NothingSpent(deps[..|deps| - 1]); }
  }

  lemma {:induction false} SpentOnOne(deps: seq<StepId>, count: multiset<StepId>, x: StepId)
    ensures Spent(deps, count + multiset{x}) == Spent(deps, count) + multiset(deps)[x]
  {
    if deps != [] {
      var front := deps[..|deps| - 1];
      SpentOnOne(front, count, x);
      assert deps == front + [deps[|deps| - 1]];
    }
  }

  lemma {:induction false} DecrementsAreSpent(steps: seq<ProvisionStep>, sorted: seq<StepId>, v: StepId)
    ensures Decrements(steps, sorted, v) == Spent(DependenciesOf(steps, v), multiset(sorted))
    decreases |sorted|
  {
    if sorted == [] {
      NothingSpent(DependenciesOf(steps, v));
    } else {
      var front, x := sorted[..|sorted| - 1], sorted[|sorted| - 1];
      assert sorted == front + [x];
      DecrementsAreSpent(steps, front, v);
      SpentOnOne(DependenciesOf(steps, v), multiset(front), x);
      DependentsMirrorDependencies(steps, v, x);
    }
  }

  /** What was popped and what is on the stack is due to what was popped. */
  lemma PopsAreDue(steps: seq<ProvisionStep>, n: nat, v: StepId)
    ensures var st := Pops(steps, n); multiset(st.sorted)[v] + multiset(st.ready)[v] == Due(steps, multiset(st.sorted), v)
  {
    PopsBalanced(steps, n, v);
    DecrementsAreSpent(steps, Pops(steps, n).sorted, v);
  }

  lemma EndSettles(steps: seq<ProvisionStep>, n: nat)
    requires Pops(steps, n).ready == []
    ensures Settles(steps, multiset(Pops(steps, n).sorted))
  {
    forall v ensures multiset(Pops(steps, n).sorted)[v] == Due(steps, multiset(Pops(steps, n).sorted), v) {
      PopsAreDue(steps, n, v);
    }
  }

  // ---- any solution bounds the loop ----

  lemma {:induction false} SpentGrows(deps: seq<StepId>, a: multiset<StepId>, b: multiset<StepId>)
    requires a <= b
    ensures Spent(deps, a) <= Spent(deps, b)
  {
    if deps != [] { SpentGrows(deps[..|deps| - 1], a, b); }
  }

  lemma DueGrows(steps: seq<ProvisionStep>, a: multiset<StepId>, b: multiset<StepId>, v: StepId)
    requires a <= b
    ensures Due(steps, a, v) <= Due(steps, b, v)
  {
    SpentGrows(DependenciesOf(steps, v), a, b);
  }

  lemma PopsWithin(steps: seq<ProvisionStep>, count: multiset<StepId>, n: nat)
    requires Settles(steps, count)
    ensures multiset(Pops(steps, n).sorted) <= count
  {
    var within := (k: nat) => multiset(Pops(steps, k).sorted) <= count;
    forall k: nat | within(k) ensures within(k + 1) { NextWithin(steps, count, k, Pops(steps, k)); }
    Climb(within, n);
  }

  lemma NextWithin(steps: seq<ProvisionStep>, count: multiset<StepId>, n: nat, st: State)
    requires Settles(steps, count) && st == Pops(steps, n) && multiset(st.sorted) <= count
    ensures multiset(Pops(steps, n + 1).sorted) <= count
  {
    if st.ready != [] {
      forall v ensures multiset(st.sorted)[v] + multiset(st.ready)[v] <= count[v] { DueWithin(steps, count, n, st, v); }
      OneMore(st.sorted, st.ready, count);
    }
  }

  lemma DueWithin(steps: seq<ProvisionStep>, count: multiset<StepId>, n: nat, st: State, v: StepId)
    requires Settles(steps, count) && st == Pops(steps, n) && multiset(st.sorted) <= count
    ensures multiset(st.sorted)[v] + multiset(st.ready)[v] <= count[v]
  {
    PopsAreDue(steps, n, v);
    DueGrows(steps, multiset(st.sorted), count, v);
    assert count[v] == Due(steps, count, v);
  }

  lemma OneMore(sorted: seq<StepId>, ready: seq<StepId>, count: multiset<StepId>)
    requires ready != [] && forall v :: multiset(sorted)[v] + multiset(ready)[v] <= count[v]
    ensures multiset(sorted + [ready[|ready| - 1]]) <= count
  {
    var next := ready[|ready| - 1];
    assert next in multiset(ready);
    forall v ensures multiset(sorted + [next])[v] <= count[v] {
      assert multiset(sorted + [next])[v] == multiset(sorted)[v] + if v == next then 1 else 0;
    }
  }

  /** Turn by turn one more id is popped, until the loop ends. */
  lemma {:induction false} EndedOrLong(steps: seq<ProvisionStep>, n: nat) returns (end: nat)
    ensures end <= n && |Pops(steps, end).sorted| == end && (end < n ==> Pops(steps, end).ready == [])
  {
    if n == 0 {
      end := 0;
    } else {
      end := EndedOrLong(steps, n - 1);
      if end == n - 1 && Pops(steps, end).ready != [] { end := n; }
    }
  }

  /** The loop ends exactly when the equations have a solution; what it pops is the least one. */
  lemma LoopEndsIffSettles(steps: seq<ProvisionStep>)
    ensures LoopEnds(steps) <==> exists count :: Settles(steps, count)
    ensures forall n: nat, count :: Pops(steps, n).ready == [] && Settles(steps, count) ==>
      Settles(steps, multiset(Pops(steps, n).sorted)) && multiset(Pops(steps, n).sorted) <= count
  {
    if LoopEnds(steps) {
      var n: nat :| Pops(steps, n).ready == [];
      EndSettles(steps, n);
    }
    if count :| Settles(steps, count) {
      var end := EndedOrLong(steps, |count| + 1);
      PopsWithin(steps, count, end);
      FewerThan(Pops(steps, end).sorted, count);
    }
    forall n: nat, count | Pops(steps, n).ready == [] && Settles(steps, count)
      ensures Settles(steps, multiset(Pops(steps, n).sorted)) && multiset(Pops(steps, n).sorted) <= count
    {
      EndSettles(steps, n);
      PopsWithin(steps, count, n);
    }
  }

  lemma FewerThan(s: seq<StepId>, count: multiset<StepId>)
    requires multiset(s) <= count
    ensures |s| <= |count|
    ensures |s| == |count| ==> multiset(s) == count
  {
    assert count == multiset(s) + (count - multiset(s));
    assert |count| == |multiset(s)| + |count - multiset(s)|;
  }

  // ---- without a cycle there is one solution ----

  lemma {:induction false} MoreSpent(deps: seq<StepId>, a: multiset<StepId>, b: multiset<StepId>) returns (d: StepId)
    requires Spent(deps, a) < Spent(deps, b)
    ensures d in deps && a[d] < b[d]
  {
    var front := deps[..|deps| - 1];
    if Spent(front, a) < Spent(front, b) { d := MoreSpent(front, a, b); } else { d := deps[|deps| - 1]; }
  }

  /** An id that differs in two solutions needs another that does. */
  lemma DifferenceNeedsDifference(steps: seq<ProvisionStep>, a: multiset<StepId>, b: multiset<StepId>, v: StepId)
    requires Settles(steps, a) && Settles(steps, b) && a <= b && a[v] < b[v]
    ensures v in Ids(steps) && exists d :: Needs(steps, v, d) && a[d] < b[d]
  {
    assert a[v] == Due(steps, a, v) && b[v] == Due(steps, b, v);
    var d := MoreSpent(DependenciesOf(steps, v), a, b);
    NeedsIsDependency(steps, v, d);
  }

  lemma OneSolution(steps: seq<ProvisionStep>, a: multiset<StepId>, b: multiset<StepId>)
    requires Acyclic(steps) && Settles(steps, a) && Settles(steps, b) && a <= b
    ensures a == b
  {
    var differs := (v: StepId) => a[v] < b[v];
    forall v | differs(v) ensures v in Ids(steps) && NeedsAnother(steps, differs, v) {
      DifferenceNeedsDifference(steps, a, b, v);
      var d :| Needs(steps, v, d) && a[d] < b[d];
      assert differs(d);
    }
    if v :| a[v] < b[v] {
      assert differs(v);
      NeedingForEverIsCycle(steps, differs, v);
    }
    assert forall v :: a[v] == b[v];
  }

  /** On a plan without a cycle every solution is what the loop pops, and its size decides the sort. */
  lemma SolutionIsPopped(steps: seq<ProvisionStep>, count: multiset<StepId>)
    requires Acyclic(steps) && Settles(steps, count)
    ensures PassesTest(steps) <==> |count| == |steps|
    ensures PassesTest(steps) ==> multiset(KahnOrder(steps)) == count
  {
    AcyclicEnds(steps);
    var n: nat :| Pops(steps, n).ready == [];
    var end := EndedOrLong(steps, n);
    if end < n { PopsSettle(steps, end, n); }
    EndSettles(steps, end);
    PopsWithin(steps, count, end);
    OneSolution(steps, multiset(Pops(steps, end).sorted), count);
    LoopEnd(steps, end);
  }

  // ---- when success lists the plan ----

  /**
   * Every id with dependencies is listed as often as it will be popped: once, and once more for every listing of
   * a dependency beyond the first.
   */
  ghost predicate ListedAsPopped(steps: seq<ProvisionStep>) {
    forall v :: v in Ids(steps) ==> ListedAt(steps, v)
  }

  ghost predicate ListedAt(steps: seq<ProvisionStep>, v: StepId) {
    var listed := multiset(Ids(steps));
    InDegree(steps, v) > 0 ==> listed[v] + InDegree(steps, v) == 1 + Spent(DependenciesOf(steps, v), listed)
  }

  lemma {:induction false} SpentOnEach(deps: seq<StepId>, count: multiset<StepId>)
    requires forall d :: d in deps ==> d in count
    ensures Spent(deps, count) >= |deps|
  {
    if deps != [] {
      var front := deps[..|deps| - 1];
      assert forall d :: d in front ==> d in deps;
      SpentOnEach(front, count);
    }
  }

  lemma ListingSettlesIff(steps: seq<ProvisionStep>)
    requires Known(steps)
    ensures Settles(steps, multiset(Ids(steps))) <==> ListedAsPopped(steps)
  {
    var listed := multiset(Ids(steps));
    forall v | v in Ids(steps) ensures listed[v] == Due(steps, listed, v) <==> ListedAt(steps, v) { ListedIsDue(steps, v); }
    assert forall v :: v !in Ids(steps) ==> listed[v] == 0;
  }

  lemma ListedIsDue(steps: seq<ProvisionStep>, v: StepId)
    requires Known(steps) && v in Ids(steps)
    ensures multiset(Ids(steps))[v] == Due(steps, multiset(Ids(steps)), v) <==> ListedAt(steps, v)
  {
    var deps := DependenciesOf(steps, v);
    DependentsMirrorDependencies(steps, v, v);
    forall d | d in deps ensures d in multiset(Ids(steps)) {
      NeedsIsDependency(steps, v, d);
      assert d in Ids(steps);
    }
    SpentOnEach(deps, multiset(Ids(steps)));
  }

  /**
   * For every plan with known dependencies: the sort succeeds and returns every id as often as the plan lists it
   * exactly when there is no cycle and every id is listed as often as it will be popped.
   */
  lemma ListsThePlanIff(steps: seq<ProvisionStep>)
    requires Known(steps)
    ensures PassesTest(steps) && multiset(KahnOrder(steps)) == multiset(Ids(steps)) <==> Acyclic(steps) && ListedAsPopped(steps)
  {
    ListingSettlesIff(steps);
    if PassesTest(steps) && multiset(KahnOrder(steps)) == multiset(Ids(steps)) {
      EndSettles(steps, |steps|);
      forall id | id in Ids(steps) ensures Popped(steps, id) {
        assert id in multiset(KahnOrder(steps));
        assert id in Pops(steps, |steps|).sorted;
      }
      AcyclicIff(steps);
    }
    if Acyclic(steps) && ListedAsPopped(steps) { SolutionIsPopped(steps, multiset(Ids(steps))); }
  }

  // ---- two plans with a repeated root on which the sort succeeds ----

  /** Nothing needs a step that needs something. */
  ghost predicate Flat(steps: seq<ProvisionStep>) {
    forall x, y :: x in DependenciesOf(steps, y) ==> DependenciesOf(steps, x) == []
  }

  lemma FlatIsAcyclic(steps: seq<ProvisionStep>)
    requires Flat(steps)
    ensures Acyclic(steps)
  {
    forall c ensures !IsCycle(steps, c) {
      if IsCycle(steps, c) {
        var k := if |c| > 2 then 1 else 0;
        NeedsIsDependency(steps, c[0], c[1]);
        NeedsIsDependency(steps, c[k], c[k + 1]);
      }
    }
  }

  /** One more step: its entries are added to those of its id. */
  lemma OneStepMore(front: seq<ProvisionStep>, last: ProvisionStep, v: StepId, deps: seq<StepId>)
    requires DependenciesOf(front, v) == deps
    ensures DependenciesOf(front + [last], v) == if last.id == v then deps + last.dependsOn else deps
  {
    assert (front + [last])[..|front|] == front;
  }

  /** One more step of another id, or without dependencies, adds none. */
  lemma OneStepAside(front: seq<ProvisionStep>, last: ProvisionStep, v: StepId, deps: seq<StepId>)
    requires DependenciesOf(front, v) == deps && (last.id != v || last.dependsOn == [])
    ensures DependenciesOf(front + [last], v) == deps
  {
    OneStepMore(front, last, v, deps);
  }

  lemma OneIdMore(front: seq<ProvisionStep>, last: ProvisionStep)
    ensures multiset(Ids(front + [last])) == multiset(Ids(front)) + multiset{last.id}
  {
    assert Ids(front + [last]) == Ids(front) + [last.id];
  }

  /** Two listings of the root `a`, one of the root `r`; `b` needs `a`, and both listings of `c` need `r`. */
  function Miscounted(a: StepId, r: StepId, b: StepId, c: StepId): seq<ProvisionStep> {
    [] + [FileStep(a, [])] + [FileStep(a, [])] + [FileStep(r, [])] + [FileStep(b, [a])] + [FileStep(c, [r])] + [FileStep(c, [r])]
  }

  lemma MiscountedRoots(a: StepId, r: StepId, v: StepId) returns (p: seq<ProvisionStep>)
    ensures p == [] + [FileStep(a, [])] + [FileStep(a, [])] + [FileStep(r, [])]
    ensures DependenciesOf(p, v) == [] && multiset(Ids(p)) == multiset{a, a, r}
  {
    p := [];
    OneStepAside(p, FileStep(a, []), v, []);
    OneIdMore(p, FileStep(a, []));
    p := p + [FileStep(a, [])];
    OneStepAside(p, FileStep(a, []), v, []);
    OneIdMore(p, FileStep(a, []));
    p := p + [FileStep(a, [])];
    OneStepAside(p, FileStep(r, []), v, []);
    OneIdMore(p, FileStep(r, []));
    p := p + [FileStep(r, [])];
  }

  lemma MiscountedParts(a: StepId, r: StepId, b: StepId, c: StepId, v: StepId)
    requires b != c
    ensures var p := Miscounted(a, r, b, c);
      && DependenciesOf(p, v) == (if v == b then [a] else if v == c then [r] + [r] else [])
      && multiset(Ids(p)) == multiset{a, a, r} + multiset{b} + multiset{c} + multiset{c}
  {
    var p := MiscountedRoots(a, r, v);
    OneStepMore(p, FileStep(b, [a]), v, []);
    OneIdMore(p, FileStep(b, [a]));
    p := p + [FileStep(b, [a])];
    OneStepMore(p, FileStep(c, [r]), v, if v == b then [a] else []);
    OneIdMore(p, FileStep(c, [r]));
    p := p + [FileStep(c, [r])];
    OneStepMore(p, FileStep(c, [r]), v, if v == b then [a] else if v == c then [r] else []);
    OneIdMore(p, FileStep(c, [r]));
  }

  /** How often the sort runs each id of that plan. */
  function MiscountedRuns(a: StepId, r: StepId, b: StepId, c: StepId): (count: multiset<StepId>)
    requires a != r && a != b && a != c && r != b && r != c && b != c
    ensures |count| == 6 && count[a] == 2 && count[r] == 1 && count[b] == 2 && count[c] == 1
    ensures forall v :: v != a && v != r && v != b && v != c ==> count[v] == 0
  {
    multiset{}[a := 2][r := 1][b := 2][c := 1]
  }

  lemma SpentOnTwo(d: StepId, count: multiset<StepId>)
    ensures Spent([d], count) == count[d] && Spent([d] + [d], count) == 2 * count[d]
  {
    assert [d][..0] == [] && ([d] + [d])[..1] == [d];
  }

  lemma MiscountedDue(p: seq<ProvisionStep>, a: StepId, r: StepId, b: StepId, c: StepId, v: StepId)
    requires a != r && a != b && a != c && r != b && r != c && b != c
    requires DependenciesOf(p, v) == (if v == b then [a] else if v == c then [r] + [r] else [])
    requires multiset(Ids(p)) == multiset{a, a, r} + multiset{b} + multiset{c} + multiset{c}
    ensures MiscountedRuns(a, r, b, c)[v] == Due(p, MiscountedRuns(a, r, b, c), v)
  {
    var count := MiscountedRuns(a, r, b, c);
    DependentsMirrorDependencies(p, v, v);
    SpentOnTwo(a, count);
    SpentOnTwo(r, count);
    assert v in Ids(p) <==> v in multiset(Ids(p));
  }

  /** The dependencies and the listing of that plan, which is all that counts. */
  ghost predicate IsMiscounted(p: seq<ProvisionStep>, a: StepId, r: StepId, b: StepId, c: StepId) {
    && (forall v :: DependenciesOf(p, v) == if v == b then [a] else if v == c then [r] + [r] else [])
    && multiset(Ids(p)) == multiset{a, a, r} + multiset{b} + multiset{c} + multiset{c}
  }

  lemma MiscountedIs(a: StepId, r: StepId, b: StepId, c: StepId)
    requires b != c
    ensures IsMiscounted(Miscounted(a, r, b, c), a, r, b, c)
  {
    forall v { MiscountedParts(a, r, b, c, v); }
    MiscountedParts(a, r, b, c, a);
  }

  lemma MiscountedSettles(p: seq<ProvisionStep>, a: StepId, r: StepId, b: StepId, c: StepId)
    requires a != r && a != b && a != c && r != b && r != c && b != c && IsMiscounted(p, a, r, b, c)
    ensures Settles(p, MiscountedRuns(a, r, b, c))
  {
    forall v ensures MiscountedRuns(a, r, b, c)[v] == Due(p, MiscountedRuns(a, r, b, c), v) { MiscountedDue(p, a, r, b, c, v); }
  }

  lemma MiscountedIsFlat(p: seq<ProvisionStep>, a: StepId, r: StepId, b: StepId, c: StepId)
    requires a != b && a != c && r != b && r != c && IsMiscounted(p, a, r, b, c)
    ensures Flat(p)
  {
  }

  lemma MiscountedListing(p: seq<ProvisionStep>, a: StepId, r: StepId, b: StepId, c: StepId)
    requires a != b && a != c && r != b && r != c && b != c && IsMiscounted(p, a, r, b, c)
    ensures |p| == 6 && multiset(Ids(p))[b] == 1 && multiset(Ids(p))[c] == 2
  {
    assert |p| == |Ids(p)| == |multiset(Ids(p))|;
  }

  lemma MiscountSucceeds(p: seq<ProvisionStep>, a: StepId, r: StepId, b: StepId, c: StepId, count: multiset<StepId>)
    requires a != r && a != b && a != c && r != b && r != c && b != c && IsMiscounted(p, a, r, b, c)
    requires count == MiscountedRuns(a, r, b, c)
    ensures PassesTest(p) && multiset(KahnOrder(p)) == count && multiset(Ids(p))[b] == 1 && multiset(Ids(p))[c] == 2
  {
    MiscountedSettles(p, a, r, b, c);
    MiscountedIsFlat(p, a, r, b, c);
    MiscountedListing(p, a, r, b, c);
    FlatIsAcyclic(p);
    SolutionIsPopped(p, count);
  }

  /** A success that does not list the plan: `b` is listed once and runs twice, `c` is listed twice and runs once. */
  lemma SuccessMayMiscount(a: StepId, r: StepId, b: StepId, c: StepId)
    requires a != r && a != b && a != c && r != b && r != c && b != c
    ensures var p := Miscounted(a, r, b, c);
      && PassesTest(p) && multiset(KahnOrder(p)) == MiscountedRuns(a, r, b, c)
      && multiset(Ids(p))[b] == 1 && multiset(Ids(p))[c] == 2
  {
    MiscountedIs(a, r, b, c);
    MiscountSucceeds(Miscounted(a, r, b, c), a, r, b, c, MiscountedRuns(a, r, b, c));
  }

  /** The root `x`, two listings of the root `a`, and two listings of `v`, one needing `a` and the other `x`. */
  function Hasty(x: StepId, a: StepId, v: StepId): seq<ProvisionStep> {
    [] + [FileStep(x, [])] + [FileStep(a, [])] + [FileStep(a, [])] + [FileStep(v, [a])] + [FileStep(v, [x])]
  }

  /** What counts of that plan. */
  ghost predicate IsHasty(p: seq<ProvisionStep>, x: StepId, a: StepId, v: StepId) {
    && (forall id :: DependenciesOf(p, id) == if id == v then [a] + [x] else [])
    && multiset(Ids(p)) == multiset{x} + multiset{a} + multiset{a} + multiset{v} + multiset{v}
    && Dependents(p, a) == [v] && Initial(p).ready == [x] + [a] + [a]
  }

  lemma HastyDependencies(x: StepId, a: StepId, v: StepId, id: StepId)
    ensures DependenciesOf(Hasty(x, a, v), id) == if id == v then [a] + [x] else []
  {
    var p: seq<ProvisionStep> := [];
    OneStepAside(p, FileStep(x, []), id, []);
    p := p + [FileStep(x, [])];
    OneStepAside(p, FileStep(a, []), id, []);
    p := p + [FileStep(a, [])];
    OneStepAside(p, FileStep(a, []), id, []);
    p := p + [FileStep(a, [])];
    if id == v {
      OneStepMore(p, FileStep(v, [a]), id, []);
      OneStepMore(p + [FileStep(v, [a])], FileStep(v, [x]), id, [a]);
    } else {
      OneStepAside(p, FileStep(v, [a]), id, []);
      OneStepAside(p + [FileStep(v, [a])], FileStep(v, [x]), id, []);
    }
  }

  lemma HastyListing(x: StepId, a: StepId, v: StepId)
    ensures multiset(Ids(Hasty(x, a, v))) == multiset{x} + multiset{a} + multiset{a} + multiset{v} + multiset{v}
  {
    var p: seq<ProvisionStep> := [];
    OneIdMore(p, FileStep(x, []));
    p := p + [FileStep(x, [])];
    OneIdMore(p, FileStep(a, []));
    p := p + [FileStep(a, [])];
    OneIdMore(p, FileStep(a, []));
    p := p + [FileStep(a, [])];
    OneIdMore(p, FileStep(v, [a]));
    p := p + [FileStep(v, [a])];
    OneIdMore(p, FileStep(v, [x]));
  }

  lemma OneDependentMore(front: seq<ProvisionStep>, last: ProvisionStep, on: StepId, list: seq<StepId>)
    requires Dependents(front, on) == list
    ensures last.dependsOn == [] ==> Dependents(front + [last], on) == list
    ensures |last.dependsOn| == 1 ==> Dependents(front + [last], on) == if last.dependsOn[0] == on then list + [last.id] else list
  {
    assert (front + [last])[..|front|] == front;
    assert DependentEntries(last.id, [], on) == [];
    if |last.dependsOn| == 1 { assert last.dependsOn[..0] == []; }
    if last.dependsOn == [] { assert list + [] == list; }
  }

  lemma HastyDependents(x: StepId, a: StepId, v: StepId)
    requires x != a
    ensures Dependents(Hasty(x, a, v), a) == [v]
  {
    var p: seq<ProvisionStep> := [];
    OneDependentMore(p, FileStep(x, []), a, []);
    p := p + [FileStep(x, [])];
    OneDependentMore(p, FileStep(a, []), a, []);
    p := p + [FileStep(a, [])];
    OneDependentMore(p, FileStep(a, []), a, []);
    p := p + [FileStep(a, [])];
    OneDependentMore(p, FileStep(v, [a]), a, []);
    p := p + [FileStep(v, [a])];
    OneDependentMore(p, FileStep(v, [x]), a, [v]);
  }

  lemma OneRootMore(front: seq<ProvisionStep>, last: ProvisionStep, degree: map<StepId, nat>, ready: seq<StepId>)
    requires InitialReady(front, degree) == ready && last.id in degree
    ensures InitialReady(front + [last], degree) == if degree[last.id] == 0 then ready + [last.id] else ready
  {
    assert (front + [last])[..|front|] == front;
  }

  lemma HastyRoots(x: StepId, a: StepId, v: StepId, degree: map<StepId, nat>)
    requires x in degree && a in degree && v in degree && degree[x] == 0 && degree[a] == 0 && degree[v] > 0
    ensures InitialReady(Hasty(x, a, v), degree) == [x] + [a] + [a]
  {
    var p: seq<ProvisionStep> := [];
    OneRootMore(p, FileStep(x, []), degree, []);
    p := p + [FileStep(x, [])];
    OneRootMore(p, FileStep(a, []), degree, [x]);
    p := p + [FileStep(a, [])];
    OneRootMore(p, FileStep(a, []), degree, [x] + [a]);
    p := p + [FileStep(a, [])];
    OneRootMore(p, FileStep(v, [a]), degree, [x] + [a] + [a]);
    p := p + [FileStep(v, [a])];
    OneRootMore(p, FileStep(v, [x]), degree, [x] + [a] + [a]);
  }

  lemma HastyDegrees(p: seq<ProvisionStep>, x: StepId, a: StepId, v: StepId)
    requires x != a && x != v && a != v
    requires forall id :: DependenciesOf(p, id) == if id == v then [a] + [x] else []
    requires multiset(Ids(p)) == multiset{x} + multiset{a} + multiset{a} + multiset{v} + multiset{v}
    ensures var degree := Initial(p).degree;
      x in degree && a in degree && v in degree && degree[x] == 0 && degree[a] == 0 && degree[v] == 2
  {
    DependentsMirrorDependencies(p, x, x);
    DependentsMirrorDependencies(p, a, a);
    DependentsMirrorDependencies(p, v, v);
    assert x in multiset(Ids(p)) && a in multiset(Ids(p)) && v in multiset(Ids(p));
  }

  lemma HastyIs(x: StepId, a: StepId, v: StepId)
    requires x != a && x != v && a != v
    ensures IsHasty(Hasty(x, a, v), x, a, v)
  {
    forall id { HastyDependencies(x, a, v, id); }
    HastyListing(x, a, v);
    HastyDependents(x, a, v);
    HastyDegrees(Hasty(x, a, v), x, a, v);
    HastyRoots(x, a, v, Initial(Hasty(x, a, v)).degree);
  }

  /** One turn that pops `next` and finds one dependent. */
  lemma OneTurn(p: seq<ProvisionStep>, st: State, kept: seq<StepId>, next: StepId, v: StepId)
    requires st.ready == kept + [next] && Dependents(p, next) == [v] && v in st.degree && st.degree[v] > 0
    ensures Pop(p, st).sorted == st.sorted + [next] && Pop(p, st).degree == st.degree[v := st.degree[v] - 1]
    ensures Pop(p, st).ready == if st.degree[v] == 1 then kept + [v] else kept
  {
    assert st.ready[|st.ready| - 1] == next && st.ready[..|st.ready| - 1] == kept && [v][1..] == [];
    var left := st.degree[v] - 1;
    assert Relax([v], st.degree, kept) == Relax([], st.degree[v := left], if left == 0 then kept + [v] else kept);
  }

  lemma HastyTurns(p: seq<ProvisionStep>, s0: State, x: StepId, a: StepId, v: StepId)
    requires s0 == Initial(p) && s0.ready == [x] + [a] + [a] && Dependents(p, a) == [v] && v in s0.degree && s0.degree[v] == 2
    ensures Pops(p, 3).sorted == [] + [a] + [a] + [v]
  {
    var s1 := Pop(p, s0);
    TwoTurns(p, s0, s1, x, a, v);
    FirstTurns(p, s0, s1, Pop(p, s1));
  }

  /** Popping a root twice uses up the counter of a step with two dependencies. */
  lemma TwoTurns(p: seq<ProvisionStep>, s0: State, s1: State, x: StepId, a: StepId, v: StepId)
    requires s0.ready == [x] + [a] + [a] && Dependents(p, a) == [v] && v in s0.degree && s0.degree[v] == 2 && s1 == Pop(p, s0)
    ensures s1.ready != [] && Pop(p, s1).ready == [x] + [v] && Pop(p, s1).sorted == s0.sorted + [a] + [a]
  {
    OneTurn(p, s0, [x] + [a], a, v);
    OneTurn(p, s1, [x], a, v);
  }

  lemma FirstTurns(p: seq<ProvisionStep>, s0: State, s1: State, s2: State)
    requires s0 == Initial(p) && s0.ready != [] && s1 == Pop(p, s0) && s1.ready != [] && s2 == Pop(p, s1) && s2.ready != []
    ensures Pops(p, 3).sorted == s2.sorted + [s2.ready[|s2.ready| - 1]]
  {
    assert Pops(p, 1) == s1 && Pops(p, 2) == s2;
  }

  lemma HastyIsFlat(p: seq<ProvisionStep>, x: StepId, a: StepId, v: StepId)
    requires x != v && a != v && forall id :: DependenciesOf(p, id) == if id == v then [a] + [x] else []
    ensures Flat(p)
  {
  }

  lemma HastyListedAt(p: seq<ProvisionStep>, x: StepId, a: StepId, v: StepId, id: StepId)
    requires x != a && x != v && a != v && DependenciesOf(p, id) == if id == v then [a] + [x] else []
    requires multiset(Ids(p)) == multiset{x} + multiset{a} + multiset{a} + multiset{v} + multiset{v}
    ensures ListedAt(p, id)
  {
    var listed := multiset(Ids(p));
    assert ([a] + [x])[..1] == [a] && [a][..0] == [];
    assert Spent([a], listed) == 2 && Spent([a] + [x], listed) == 3;
    DependentsMirrorDependencies(p, id, id);
  }

  lemma HastySucceeds(p: seq<ProvisionStep>, x: StepId, a: StepId, v: StepId)
    requires x != a && x != v && a != v && IsHasty(p, x, a, v) && Known(p)
    ensures PassesTest(p) && multiset(KahnOrder(p)) == multiset(Ids(p))
  {
    HastyIsFlat(p, x, a, v);
    FlatIsAcyclic(p);
    forall id | id in Ids(p) ensures ListedAt(p, id) { HastyListedAt(p, x, a, v, id); }
    ListsThePlanIff(p);
  }

  lemma HastyIsKnown(p: seq<ProvisionStep>, x: StepId, a: StepId, v: StepId)
    requires IsHasty(p, x, a, v)
    ensures Known(p) && Needs(p, v, x) && |p| == 5
  {
    NeedsIsDependency(p, v, x);
    assert x in multiset(Ids(p)) && a in multiset(Ids(p));
    assert |p| == |Ids(p)| == |multiset(Ids(p))|;
    forall i, d | 0 <= i < |p| && d in p[i].dependsOn ensures d in Ids(p) {
      assert Needs(p, p[i].id, d);
      NeedsIsDependency(p, p[i].id, d);
    }
  }

  lemma HastyRunsTooEarly(p: seq<ProvisionStep>, x: StepId, a: StepId, v: StepId)
    requires x != a && x != v && a != v && IsHasty(p, x, a, v)
    ensures PassesTest(p) && multiset(KahnOrder(p)) == multiset(Ids(p))
    ensures Needs(p, v, x) && |KahnOrder(p)| > 2 && KahnOrder(p)[2] == v && x !in KahnOrder(p)[..2]
  {
    HastyIsKnown(p, x, a, v);
    HastySucceeds(p, x, a, v);
    HastyDegrees(p, x, a, v);
    HastyTurns(p, Initial(p), x, a, v);
    SortedGrows(p, 3, |p|);
    EarlyStart(KahnOrder(p), x, a, v);
  }

  lemma EarlyStart(order: seq<StepId>, x: StepId, a: StepId, v: StepId)
    requires x != a && [] + [a] + [a] + [v] <= order
    ensures |order| > 2 && order[2] == v && x !in order[..2]
  {
    assert order[..2] == [a] + [a];
  }

  /** A success that lists the plan and still breaks its order: `v` runs before the `x` it needs. */
  lemma SuccessMayRunTooEarly(x: StepId, a: StepId, v: StepId)
    requires x != a && x != v && a != v
    ensures var p := Hasty(x, a, v);
      && PassesTest(p) && multiset(KahnOrder(p)) == multiset(Ids(p))
      && Needs(p, v, x) && |KahnOrder(p)| > 2 && KahnOrder(p)[2] == v && x !in KahnOrder(p)[..2]
  {
    HastyIs(x, a, v);
    HastyRunsTooEarly(Hasty(x, a, v), x, a, v);
  }
}
