/** Ties in the sort: which of several ready steps goes first, and when that is the one listed first. */
module SortTies {
  import opened Common
  import opened Plan
  import opened TopologicalSort

  // ---- the promise ----

  ghost predicate ListedBefore(steps: seq<ProvisionStep>, a: StepId, b: StepId) {
    exists i, j :: 0 <= i < j < |steps| && Ids(steps)[i] == a && Ids(steps)[j] == b
  }

  /** Everything the step needs is among `done`. */
  ghost predicate Unblocked(steps: seq<ProvisionStep>, done: seq<StepId>, id: StepId) {
    forall d :: Needs(steps, id, d) ==> d in done
  }

  /** The steps at `p` and `q` are both ready when `t` steps are done, and nothing but their order is open. */
  ghost predicate Tie(steps: seq<ProvisionStep>, order: seq<StepId>, t: nat, p: nat, q: nat) {
    && t <= p < |order| && t <= q < |order|
    && Unblocked(steps, order[..t], order[p]) && Unblocked(steps, order[..t], order[q])
  }

  /** Insertion order for ties: of two steps ready at the same turn, the one listed earlier goes first. */
  ghost predicate KeepsInsertionOrder(steps: seq<ProvisionStep>, order: seq<StepId>) {
    forall t: nat, p: nat, q: nat :: Tie(steps, order, t, p, q) && ListedBefore(steps, order[p], order[q]) ==> p < q
  }

  // ---- the conditions ----

  ghost predicate OneOrder(steps: seq<ProvisionStep>) {
    forall a, b :: IsTopologicalOrder(steps, a) && IsTopologicalOrder(steps, b) ==> a == b
  }

  /** Every step but the first needs the step right before it. */
  ghost predicate Consecutive(steps: seq<ProvisionStep>, order: seq<StepId>) {
    forall k :: 0 <= k < |order| - 1 ==> Needs(steps, order[k + 1], order[k])
  }

  /** The stack never holds two ids. */
  ghost predicate NeverTwoReady(steps: seq<ProvisionStep>) {
    forall n: nat :: |Pops(steps, n).ready| <= 1
  }

  ghost predicate Sortable(steps: seq<ProvisionStep>) { DistinctIds(steps) && Known(steps) && Acyclic(steps) }

  lemma KahnSorts(steps: seq<ProvisionStep>)
    requires Sortable(steps)
    ensures IsTopologicalOrder(steps, KahnOrder(steps)) && |KahnOrder(steps)| == |steps| && NoDup(KahnOrder(steps))
  {
    DistinctRootsOnce(steps);
    KahnOrders(steps);
    KahnDecides(steps);
  }

  // ---- the ready stack lists its new entries in plan order ----

  /** In plan order; entries of one step may stand side by side. */
  ghost predicate InPlanOrder(steps: seq<ProvisionStep>, s: seq<StepId>) {
    forall x, y :: 0 <= x < y < |s| ==> s[x] == s[y] || ListedBefore(steps, s[x], s[y])
  }

  lemma ListedBeforeSnoc(front: seq<ProvisionStep>, last: ProvisionStep, a: StepId, b: StepId)
    ensures ListedBefore(front, a, b) ==> ListedBefore(front + [last], a, b)
    ensures a in Ids(front) ==> ListedBefore(front + [last], a, last.id)
  {
    var all := front + [last];
    assert Ids(all) == Ids(front) + [last.id];
    if ListedBefore(front, a, b) {
      var i, j :| 0 <= i < j < |front| && Ids(front)[i] == a && Ids(front)[j] == b;
      assert Ids(all)[i] == a && Ids(all)[j] == b;
    }
    if a in Ids(front) {
      var i :| 0 <= i < |front| && Ids(front)[i] == a;
      assert Ids(all)[i] == a && Ids(all)[|front|] == last.id;
    }
  }

  /** Entries of the last step may be added to a list in plan order. */
  lemma AddLast(front: seq<ProvisionStep>, last: ProvisionStep, s: seq<StepId>, more: seq<StepId>)
    requires InPlanOrder(front, s) && (forall x :: x in s ==> x in Ids(front)) && forall x :: x in more ==> x == last.id
    ensures InPlanOrder(front + [last], s + more)
  {
    var all := s + more;
    forall x, y | 0 <= x < y < |all| ensures all[x] == all[y] || ListedBefore(front + [last], all[x], all[y]) {
      ListedBeforeSnoc(front, last, all[x], all[y]);
      if x < |s| { assert all[x] in s; } else { assert all[x] in more; }
      if y >= |s| { assert all[y] in more; }
    }
  }

  lemma {:induction false} DependentsInPlanOrder(steps: seq<ProvisionStep>, on: StepId)
    ensures InPlanOrder(steps, Dependents(steps, on))
  {
    if steps != [] {
      var front, last := steps[..|steps| - 1], steps[|steps| - 1];
      DependentsInPlanOrder(front, on);
      EntriesCount(last.id, last.dependsOn, on);
      forall x | x in Dependents(front, on) ensures x in Ids(front) { DependentIsStep(front, x, on); }
      AddLast(front, last, Dependents(front, on), DependentEntries(last.id, last.dependsOn, on));
      assert steps == front + [last];
    }
  }

  lemma {:induction false} ReadyInPlanOrder(steps: seq<ProvisionStep>, degree: map<StepId, nat>)
    ensures InPlanOrder(steps, InitialReady(steps, degree))
  {
    if steps != [] {
      var front, last := steps[..|steps| - 1], steps[|steps| - 1];
      ReadyInPlanOrder(front, degree);
      InitialReadyIs(front, degree);
      AddLast(front, last, InitialReady(front, degree), [last.id]);
      AddLast(front, last, InitialReady(front, degree), []);
      assert InitialReady(front, degree) + [] == InitialReady(front, degree);
      assert steps == front + [last];
    }
  }

  lemma InPlanOrderTail(steps: seq<ProvisionStep>, s: seq<StepId>)
    requires s != [] && InPlanOrder(steps, s)
    ensures InPlanOrder(steps, s[1..])
    ensures forall x :: x in s[1..] ==> x == s[0] || ListedBefore(steps, s[0], x)
  {
    forall x, y | 0 <= x < y < |s[1..]| ensures s[1..][x] == s[1..][y] || ListedBefore(steps, s[1..][x], s[1..][y]) {
      assert s[x + 1] == s[y + 1] || ListedBefore(steps, s[x + 1], s[y + 1]);
    }
  }

  /** What a relaxation pushes keeps the order of the list it relaxes. */
  lemma {:induction false} PushedInPlanOrder(steps: seq<ProvisionStep>, list: seq<StepId>, degree: map<StepId, nat>, ready: seq<StepId>)
    returns (pushed: seq<StepId>)
    requires InPlanOrder(steps, list)
    ensures Relax(list, degree, ready).1 == ready + pushed
    ensures InPlanOrder(steps, pushed) && forall x :: x in pushed ==> x in list
    decreases |list|
  {
    if list == [] {
      pushed := [];
    } else {
      var d, rest := list[0], list[1..];
      InPlanOrderTail(steps, list);
      var left := if d in degree && degree[d] > 0 then degree[d] - 1 else 0;
      if d in degree && left == 0 {
        var more := PushedInPlanOrder(steps, rest, degree[d := left], ready + [d]);
        pushed := [d] + more;
        assert ready + [d] + more == ready + pushed;
        PrependInPlanOrder(steps, d, more, rest);
      } else if d in degree {
        pushed := PushedInPlanOrder(steps, rest, degree[d := left], ready);
      } else {
        pushed := PushedInPlanOrder(steps, rest, degree, ready);
      }
    }
  }

  lemma PrependInPlanOrder(steps: seq<ProvisionStep>, d: StepId, more: seq<StepId>, rest: seq<StepId>)
    requires InPlanOrder(steps, more) && (forall x :: x in more ==> x in rest)
    requires forall x :: x in rest ==> x == d || ListedBefore(steps, d, x)
    ensures InPlanOrder(steps, [d] + more)
  {
    var all := [d] + more;
    forall x, y | 0 <= x < y < |all| ensures all[x] == all[y] || ListedBefore(steps, all[x], all[y]) {
      assert all[y] == more[y - 1] && more[y - 1] in more;
      if x > 0 { assert all[x] == more[x - 1]; }
    }
  }

  // ---- two ready ids break the promise ----

  lemma ReadyIsUnblocked(steps: seq<ProvisionStep>, st: State, v: StepId)
    requires Inv(steps, st) && v in st.ready
    ensures Unblocked(steps, st.sorted, v) && v !in st.sorted
  {
    assert v in st.sorted + st.ready && v in st.degree;
    PendingZero(DependenciesOf(steps, v), st.sorted);
    forall d | Needs(steps, v, d) ensures d in st.sorted { NeedsIsDependency(steps, v, d); }
    OnRight(st.sorted, st.ready, v);
  }

  lemma OnRight(a: seq<StepId>, b: seq<StepId>, x: StepId)
    requires NoDup(a + b) && x in b
    ensures x !in a
  {
    var j :| 0 <= j < |b| && b[j] == x;
    forall i | 0 <= i < |a| ensures a[i] != x { assert (a + b)[i] != (a + b)[|a| + j]; }
  }

  /** The loop stands at turn `n` of a sort that ends with `order`. */
  ghost predicate At(steps: seq<ProvisionStep>, order: seq<StepId>, n: nat, st: State) {
    && Inv(steps, st) && NoDup(order) && multiset(order) == multiset(Ids(steps))
    && n < |order| && order[..n] == st.sorted && st.ready != [] && order[n] == st.ready[|st.ready| - 1]
  }

  /** While the stack is not empty, the order so far is the sorted part and the top of the stack comes next. */
  lemma TopIsNext(steps: seq<ProvisionStep>, n: nat)
    requires Sortable(steps) && Pops(steps, n).ready != []
    ensures At(steps, KahnOrder(steps), n, Pops(steps, n))
    ensures Pops(steps, n + 1) == Pop(steps, Pops(steps, n))
  {
    KahnSorts(steps);
    DistinctRootsOnce(steps);
    RootsOnceEnds(steps);
    PopsInv(steps, n);
    LoopTurn(steps, n, |steps|);
    TurnsAreSorted(steps, n + 1);
    SortedGrows(steps, n + 1, |steps|);
    NextAfter(KahnOrder(steps), Pops(steps, n).sorted, Pops(steps, n).ready[|Pops(steps, n).ready| - 1]);
  }

  lemma NextAfter(order: seq<StepId>, sorted: seq<StepId>, next: StepId)
    requires sorted + [next] <= order
    ensures |sorted| < |order| && order[..|sorted|] == sorted && order[|sorted|] == next
  {
  }

  /** The two topmost of several ready ids, listed in plan order, are popped the other way round. */
  lemma TwoReadyBreak(steps: seq<ProvisionStep>, order: seq<StepId>, n: nat, st: State)
    requires At(steps, order, n, st) && |st.ready| >= 2 && InPlanOrder(steps, st.ready)
    ensures !KeepsInsertionOrder(steps, order)
  {
    var k := |st.ready| - 1;
    var a, b := st.ready[k - 1], st.ready[k];
    ReadyIsUnblocked(steps, st, a);
    ReadyIsUnblocked(steps, st, b);
    assert a != b by { assert (st.sorted + st.ready)[|st.sorted| + k - 1] != (st.sorted + st.ready)[|st.sorted| + k]; }
    var p := PlaceOf(steps, order, n, st, a);
    assert Tie(steps, order, n, p, n);
    assert p != n;
  }

  /** A ready id is still to come. */
  lemma PlaceOf(steps: seq<ProvisionStep>, order: seq<StepId>, n: nat, st: State, a: StepId) returns (p: nat)
    requires At(steps, order, n, st) && a in st.ready
    ensures n <= p < |order| && order[p] == a
  {
    ReadyIsUnblocked(steps, st, a);
    assert a in Elems(st.sorted + st.ready);
    assert a in multiset(Ids(steps));
    assert a in multiset(order);
    forall i | 0 <= i < n ensures order[i] != a { assert order[i] == order[..n][i]; }
    p :| 0 <= p < |order| && order[p] == a;
  }

  /** Popping the only ready id leaves the ids it frees, in plan order. */
  lemma PopOnly(steps: seq<ProvisionStep>, st: State)
    requires |st.ready| == 1
    ensures InPlanOrder(steps, Pop(steps, st).ready)
  {
    var list := Dependents(steps, st.ready[0]);
    DependentsInPlanOrder(steps, st.ready[0]);
    var pushed := PushedInPlanOrder(steps, list, st.degree, []);
    assert st.ready[..0] == [];
  }

  lemma ReadyStaysInOrder(steps: seq<ProvisionStep>, n: nat)
    requires n > 0 ==> |Pops(steps, n - 1).ready| <= 1
    ensures InPlanOrder(steps, Pops(steps, n).ready)
  {
    if n == 0 {
      ReadyInPlanOrder(steps, Initial(steps).degree);
      assert Pops(steps, 0) == Initial(steps);
    } else {
      var st := Pops(steps, n - 1);
      if st.ready == [] {
        assert Pops(steps, n) == st;
      } else {
        PopOnly(steps, st);
        assert Pops(steps, n) == Pop(steps, st);
      }
    }
  }

  lemma KeepingMeansOne(steps: seq<ProvisionStep>)
    requires Sortable(steps) && KeepsInsertionOrder(steps, KahnOrder(steps))
    ensures NeverTwoReady(steps)
  {
    var one := (n: nat) => |Pops(steps, n).ready| <= 1;
    KeepingMeansOneNext(steps, 0);
    forall k: nat | one(k) ensures one(k + 1) { KeepingMeansOneNext(steps, k + 1); }
    forall n: nat ensures |Pops(steps, n).ready| <= 1 {
      Climb(one, n);
      assert one(n);
    }
  }

  lemma KeepingMeansOneNext(steps: seq<ProvisionStep>, n: nat)
    requires Sortable(steps) && KeepsInsertionOrder(steps, KahnOrder(steps))
    requires n > 0 ==> |Pops(steps, n - 1).ready| <= 1
    ensures |Pops(steps, n).ready| <= 1
  {
    ReadyStaysInOrder(steps, n);
    if Pops(steps, n).ready != [] {
      TopIsNext(steps, n);
      AtMostOne(steps, KahnOrder(steps), n, Pops(steps, n));
    }
  }

  lemma AtMostOne(steps: seq<ProvisionStep>, order: seq<StepId>, n: nat, st: State)
    requires At(steps, order, n, st) && KeepsInsertionOrder(steps, order) && InPlanOrder(steps, st.ready)
    ensures |st.ready| <= 1
  {
    if |st.ready| >= 2 { TwoReadyBreak(steps, order, n, st); }
  }

  // ---- never two ready: each step needs the one before it ----

  lemma OneReadyIsConsecutive(steps: seq<ProvisionStep>)
    requires Sortable(steps) && NeverTwoReady(steps)
    ensures Consecutive(steps, KahnOrder(steps))
  {
    var order := KahnOrder(steps);
    KahnSorts(steps);
    forall k | 0 <= k < |order| - 1 ensures Needs(steps, order[k + 1], order[k]) { NextNeedsThis(steps, k); }
  }

  lemma StillReady(steps: seq<ProvisionStep>, n: nat)
    requires Sortable(steps) && n < |steps|
    ensures Pops(steps, n).ready != []
  {
    if Pops(steps, n).ready == [] {
      DistinctRootsOnce(steps);
      PopsInv(steps, n);
      PopsSettle(steps, n, |steps|);
      KahnSorts(steps);
    }
  }

  lemma NextNeedsThis(steps: seq<ProvisionStep>, k: nat)
    requires Sortable(steps) && NeverTwoReady(steps) && k + 1 < |steps|
    ensures |KahnOrder(steps)| == |steps| && Needs(steps, KahnOrder(steps)[k + 1], KahnOrder(steps)[k])
  {
    StillReady(steps, k);
    StillReady(steps, k + 1);
    TopIsNext(steps, k);
    TopIsNext(steps, k + 1);
    KahnSorts(steps);
    NeighboursNeed(steps, KahnOrder(steps), k, Pops(steps, k), Pops(steps, k + 1));
  }

  lemma NeighboursNeed(steps: seq<ProvisionStep>, order: seq<StepId>, k: nat, st: State, st': State)
    requires At(steps, order, k, st) && At(steps, order, k + 1, st') && st' == Pop(steps, st)
    requires |st.ready| <= 1 && |st'.ready| <= 1
    ensures Needs(steps, order[k + 1], order[k])
  {
    PushedNeeds(steps, st, st'.ready[0]);
  }

  lemma PushedNeeds(steps: seq<ProvisionStep>, st: State, x: StepId)
    requires |st.ready| == 1 && x in Pop(steps, st).ready
    ensures Needs(steps, x, st.ready[0])
  {
    DependentsInPlanOrder(steps, st.ready[0]);
    var pushed := PushedInPlanOrder(steps, Dependents(steps, st.ready[0]), st.degree, []);
    assert st.ready[..0] == [] && [] + pushed == pushed;
    DependentIsStep(steps, x, st.ready[0]);
  }

  // ---- each step needs the one before it: one order, no ties ----

  lemma ConsecutiveHasNoTies(steps: seq<ProvisionStep>, order: seq<StepId>, t: nat, p: nat, q: nat)
    requires NoDup(order) && Consecutive(steps, order) && Tie(steps, order, t, p, q)
    ensures p == q == t
  {
    if p > t { StillBlocked(steps, order, t, p); }
    if q > t { StillBlocked(steps, order, t, q); }
  }

  lemma StillBlocked(steps: seq<ProvisionStep>, order: seq<StepId>, t: nat, p: nat)
    requires NoDup(order) && Consecutive(steps, order) && t < p < |order|
    ensures !Unblocked(steps, order[..t], order[p])
  {
    var k := p - 1;
    assert Needs(steps, order[k + 1], order[k]);
    InPrefix(order, t, k);
  }

  lemma InPrefix(order: seq<StepId>, t: nat, p: nat)
    requires NoDup(order) && t <= p < |order|
    ensures order[p] !in order[..t]
  {
  }

  lemma {:induction false} ConsecutiveFollows(steps: seq<ProvisionStep>, order: seq<StepId>, other: seq<StepId>, k: nat, p: nat)
    requires IsTopologicalOrder(steps, other) && Consecutive(steps, order) && multiset(order) == multiset(other)
    requires k < |order| && p < |other| && other[p] == order[k]
    ensures k <= p
  {
    if k > 0 {
      assert order[k - 1] in multiset(order) && order[k - 1] in multiset(other);
      var q :| 0 <= q < |other| && other[q] == order[k - 1];
      assert Needs(steps, order[k - 1 + 1], order[k - 1]);
      assert Needs(steps, other[p], other[q]);
      ConsecutiveFollows(steps, order, other, k - 1, q);
    }
  }

  lemma {:induction false} ConsecutivePrecedes(steps: seq<ProvisionStep>, order: seq<StepId>, other: seq<StepId>, k: nat, p: nat)
    requires IsTopologicalOrder(steps, other) && Consecutive(steps, order) && multiset(order) == multiset(other)
    requires |order| == |other| && k < |order| && p < |other| && other[p] == order[k]
    ensures p <= k
    decreases |order| - k
  {
    if k < |order| - 1 {
      assert order[k + 1] in multiset(order) && order[k + 1] in multiset(other);
      var q :| 0 <= q < |other| && other[q] == order[k + 1];
      assert Needs(steps, other[q], other[p]);
      ConsecutivePrecedes(steps, order, other, k + 1, q);
    }
  }

  lemma ConsecutiveIsOnly(steps: seq<ProvisionStep>, order: seq<StepId>, other: seq<StepId>)
    requires IsTopologicalOrder(steps, order) && Consecutive(steps, order) && IsTopologicalOrder(steps, other)
    ensures other == order
  {
    assert |multiset(order)| == |order| && |multiset(other)| == |other|;
    forall k | 0 <= k < |order| ensures other[k] == order[k] {
      assert order[k] in multiset(order) && order[k] in multiset(other);
      var p :| 0 <= p < |other| && other[p] == order[k];
      ConsecutiveFollows(steps, order, other, k, p);
      ConsecutivePrecedes(steps, order, other, k, p);
    }
  }

  // ---- one order: neighbours cannot be swapped ----

  function Swap(order: seq<StepId>, k: nat): (s: seq<StepId>)
    requires k + 1 < |order|
    ensures |s| == |order|
  {
    order[k := order[k + 1]][k + 1 := order[k]]
  }

  /** Where an entry of the swapped order stood before. */
  function Unswap(k: nat, i: nat): nat { if i == k then k + 1 else if i == k + 1 then k else i }

  lemma SwapIsOrder(steps: seq<ProvisionStep>, order: seq<StepId>, k: nat)
    requires IsTopologicalOrder(steps, order) && k + 1 < |order| && !Needs(steps, order[k + 1], order[k])
    ensures IsTopologicalOrder(steps, Swap(order, k))
  {
    var s := Swap(order, k);
    assert order == order[..k] + [order[k], order[k + 1]] + order[k + 2..];
    assert s == order[..k] + [order[k + 1], order[k]] + order[k + 2..];
    forall i, j | 0 <= i < |s| && 0 <= j < |s| && Needs(steps, s[i], s[j]) ensures j < i {
      assert s[i] == order[Unswap(k, i)] && s[j] == order[Unswap(k, j)];
    }
  }

  lemma OneOrderIsConsecutive(steps: seq<ProvisionStep>, order: seq<StepId>)
    requires OneOrder(steps) && IsTopologicalOrder(steps, order) && NoDup(order)
    ensures Consecutive(steps, order)
  {
    forall k | 0 <= k < |order| - 1 ensures Needs(steps, order[k + 1], order[k]) {
      if !Needs(steps, order[k + 1], order[k]) {
        assert Swap(order, k)[k] != order[k];
        SwapIsOrder(steps, order, k);
      }
    }
  }

  // ---- the ready stack under one order ----

  lemma ConsecutiveNeverTwo(steps: seq<ProvisionStep>, order: seq<StepId>, n: nat, st: State)
    requires At(steps, order, n, st) && Consecutive(steps, order)
    ensures |st.ready| <= 1
  {
    if |st.ready| >= 2 {
      var a, b := st.ready[0], st.ready[1];
      assert (st.sorted + st.ready)[|st.sorted|] != (st.sorted + st.ready)[|st.sorted| + 1];
      ReadyIsUnblocked(steps, st, a);
      ReadyIsUnblocked(steps, st, b);
      var p := PlaceOf(steps, order, n, st, a);
      var q := PlaceOf(steps, order, n, st, b);
      ConsecutiveHasNoTies(steps, order, n, p, q);
    }
  }

  /**
   * The sort keeps insertion order for ties exactly when there are no ties: when the plan has a single
   * topological order, which is when every step but the first needs the one sorted right before it, and when the
   * ready stack never holds two ids.
   */
  lemma InsertionOrderForTies(steps: seq<ProvisionStep>)
    requires DistinctIds(steps) && Known(steps) && Acyclic(steps)
    ensures KeepsInsertionOrder(steps, KahnOrder(steps)) <==> OneOrder(steps)
    ensures OneOrder(steps) <==> Consecutive(steps, KahnOrder(steps))
    ensures OneOrder(steps) <==> NeverTwoReady(steps)
  {
    var order := KahnOrder(steps);
    KahnSorts(steps);
    if KeepsInsertionOrder(steps, order) {
      KeepingMeansOne(steps);
    }
    if NeverTwoReady(steps) { OneReadyIsConsecutive(steps); }
    if OneOrder(steps) { OneOrderIsConsecutive(steps, order); }
    if Consecutive(steps, order) {
      forall a, b | IsTopologicalOrder(steps, a) && IsTopologicalOrder(steps, b) ensures a == b {
        ConsecutiveIsOnly(steps, order, a);
        ConsecutiveIsOnly(steps, order, b);
      }
      forall n: nat ensures |Pops(steps, n).ready| <= 1 {
        if Pops(steps, n).ready != [] {
          TopIsNext(steps, n);
          ConsecutiveNeverTwo(steps, order, n, Pops(steps, n));
        }
      }
      forall t: nat, p: nat, q: nat | Tie(steps, order, t, p, q) ensures p == q { ConsecutiveHasNoTies(steps, order, t, p, q); }
      NoTiesKeep(steps, order);
    }
  }

  lemma NoTiesKeep(steps: seq<ProvisionStep>, order: seq<StepId>)
    requires DistinctIds(steps) && forall t: nat, p: nat, q: nat :: Tie(steps, order, t, p, q) ==> p == q
    ensures KeepsInsertionOrder(steps, order)
  {
  }

  lemma NoEdges(a: ProvisionStep, b: ProvisionStep, id: StepId)
    requires a.dependsOn == [] && b.dependsOn == []
    ensures Dependents([a, b], id) == [] && InDegree([a, b], id) == 0
  {
    assert [a, b][..1] == [a] && [a][..0] == [];
    assert Dependents([a], id) == [] && InDegree([a], id) == 0;
  }

  lemma RootsInListedOrder(a: ProvisionStep, b: ProvisionStep)
    requires a.dependsOn == [] && b.dependsOn == []
    ensures Initial([a, b]).ready == [a.id, b.id]
  {
    var degree := Initial([a, b]).degree;
    NoEdges(a, b, a.id);
    NoEdges(a, b, b.id);
    assert Ids([a, b]) == [a.id, b.id];
    assert [a, b][..1] == [a] && [a][..0] == [];
    assert degree[a.id] == 0 && degree[b.id] == 0;
    assert InitialReady([a], degree) == [a.id];
  }

  lemma TwoRootsOrder(a: ProvisionStep, b: ProvisionStep)
    requires a.dependsOn == [] && b.dependsOn == []
    ensures KahnOrder([a, b]) == [b.id, a.id]
  {
    RootsInListedOrder(a, b);
    NoEdges(a, b, a.id);
    NoEdges(a, b, b.id);
    assert [a.id, b.id][..1] == [a.id] && [a.id][..0] == [];
    assert Pops([a, b], 1).sorted == [b.id] && Pops([a, b], 1).ready == [a.id];
  }

  /** Two independent steps run in the opposite of their listed order. */
  lemma TwoRootsSwap(a: ProvisionStep, b: ProvisionStep)
    requires a.id != b.id && a.dependsOn == [] && b.dependsOn == []
    ensures KahnOrder([a, b]) == [b.id, a.id] && !KeepsInsertionOrder([a, b], KahnOrder([a, b]))
  {
    var steps, order := [a, b], [b.id, a.id];
    TwoRootsOrder(a, b);
    assert Ids(steps)[0] == a.id && Ids(steps)[1] == b.id;
    assert Tie(steps, order, 0, 1, 0) && ListedBefore(steps, order[1], order[0]);
  }

  /** The first step to run is the last one listed without dependencies: the stack is popped from the back. */
  lemma {:induction false} LastRootGoesFirst(steps: seq<ProvisionStep>, n: nat)
    requires n > 0 && Initial(steps).ready != []
    ensures Pops(steps, n).sorted != []
    ensures Pops(steps, n).sorted[0] == Initial(steps).ready[|Initial(steps).ready| - 1]
  {
    if n > 1 {
      LastRootGoesFirst(steps, n - 1);
    } else {
      assert Pops(steps, 0) == Initial(steps);
    }
  }
}
