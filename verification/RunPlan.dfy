/** The plan runner: executes the sorted steps one after another and reports every transition. */
module RunPlan {
  import opened Common
  import opened Plan
  import Redaction
  import SortLoop
  import TopologicalSort

  datatype Event =
    | StepStarted(id: StepId)
    | StepOutput(id: StepId, line: string)
    | StepFinished(id: StepId)
    | StepFailed(id: StepId, error: string)
    | PlanFinished(success: bool)

  /** How a step failed, whether the token had fired by then, and what a diagnosis would find. */
  datatype StepFailure = StepFailure(error: string, cancelled: bool, diagnosis: Option<string>)

  /** The outcome of executing one step: the lines it streams, then success or a failure. */
  datatype StepRun = StepRun(lines: seq<string>, failure: Option<StepFailure>)

  /** What the event stream gets to see of a step: its lines scrubbed of secrets. */
  function Shown(run: StepRun): StepRun { run.(lines := Redaction.RedactAll(run.lines)) }

  /** The function that shows a run. */
  ghost predicate IsShow(show: StepRun -> StepRun) { forall run {:trigger Shown(run)} :: show(run) == Shown(run) }

  datatype RunError =
    | InvalidPlan(reason: TopologicalSort.PlanError)
    | Cancelled(before: StepId)
    | StepError(at: StepId, error: string)

  const CILIUM_INSTALL_STEP: StepId := "cni-cilium-install"

  function FindStep(steps: seq<ProvisionStep>, id: StepId): (r: Option<ProvisionStep>)
    ensures r.Some? <==> id in Ids(steps)
    ensures r.Some? ==> r.value in steps && r.value.id == id
  {
    if steps == [] then None
    else if steps[0].id == id then
      assert Ids(steps)[0] == id;
      Some(steps[0])
    else
      assert Ids(steps) == [steps[0].id] + Ids(steps[1..]);
      FindStep(steps[1..], id)
  }

  /** The reported message; a failed Cilium install may carry a diagnosis, unless the run was cancelled. */
  function Message(step: ProvisionStep, failure: StepFailure): string {
    if !failure.cancelled && step.id == CILIUM_INSTALL_STEP
       && step.action.Command? && step.action.command.CiliumInstall? && failure.diagnosis.Some?
    then failure.error + "\n" + failure.diagnosis.value
    else failure.error
  }

  function Outputs(id: StepId, lines: seq<string>): (events: seq<Event>)
    ensures |events| == |lines|
    ensures forall k :: 0 <= k < |lines| ==> events[k] == StepOutput(id, lines[k])
  {
    if lines == [] then [] else [StepOutput(id, lines[0])] + Outputs(id, lines[1..])
  }

  /** The events of the first `n` steps when they all succeed. */
  function Blocks(order: seq<StepId>, runs: nat -> StepRun, n: nat): seq<Event>
    requires n <= |order|
  {
    if n == 0 then []
    else Blocks(order, runs, n - 1) + Block(order[n - 1], runs(n - 1))
  }

  function Block(id: StepId, run: StepRun): seq<Event> {
    [StepStarted(id)] + Outputs(id, run.lines) + [StepFinished(id)]
  }

  ghost predicate Proceeds(cancelled: nat -> bool, runs: nat -> StepRun, k: nat) {
    !cancelled(k) && runs(k).failure.None?
  }

  /** Step `k` of the order is where the run ends: the first cancelled or failing one, or the end. */
  ghost predicate StopsAt(order: seq<StepId>, cancelled: nat -> bool, runs: nat -> StepRun, k: nat) {
    && k <= |order|
    && (forall i :: 0 <= i < k ==> Proceeds(cancelled, runs, i))
    && (k < |order| ==> !Proceeds(cancelled, runs, k))
  }

  lemma StopsByCancellation(order: seq<StepId>, cancelled: nat -> bool, runs: nat -> StepRun, k: nat, c: nat)
    requires StopsAt(order, cancelled, runs, k) && cancelled(c)
    ensures k <= c
  {
    assert !Proceeds(cancelled, runs, c);
  }

  /** One run of a sorted plan: what it observed, where it stopped, what it reported and returned. */
  datatype Execution = Execution(
    steps: seq<ProvisionStep>, order: seq<StepId>, cancelled: nat -> bool, runs: nat -> StepRun,
    stop: nat, events: seq<Event>, result: Result<(), RunError>)

  /** The last events of a run that stops at step `id`, and the error it returns. */
  ghost predicate Aborts(steps: seq<ProvisionStep>, id: StepId, cancelled: bool, run: StepRun, tail: seq<Event>, error: RunError)
    requires id in Ids(steps)
  {
    if cancelled then tail == [PlanFinished(false)] && error == Cancelled(id)
    else
      && run.failure.Some?
      && tail == [StepStarted(id)] + Outputs(id, run.lines)
                 + [StepFailed(id, Message(FindStep(steps, id).value, run.failure.value)), PlanFinished(false)]
      && error == StepError(id, run.failure.value.error)
  }

  /** The events after the completed blocks, and the returned value. */
  ghost predicate Ends(x: Execution, tail: seq<Event>)
    requires x.stop <= |x.order| && forall id :: id in x.order ==> id in Ids(x.steps)
  {
    if x.stop == |x.order| then
      tail == [PlanFinished(true)] && x.result == Success(())
    else
      x.result.Failure? && Aborts(x.steps, x.order[x.stop], x.cancelled(x.stop), x.runs(x.stop), tail, x.result.error)
  }

  /** The run of a plan whose ids are distinct, in an order that puts dependencies first. */
  ghost predicate Ordered(x: Execution) {
    DistinctIds(x.steps) && IsTopologicalOrder(x.steps, x.order)
  }

  ghost predicate IsExecution(x: Execution) {
    && |x.order| == |x.steps|
    && (forall id :: id in x.order ==> id in Ids(x.steps))
    && StopsAt(x.order, x.cancelled, x.runs, x.stop)
    && Completed(x) <= x.events
    && Ends(x, x.events[|Completed(x)|..])
  }

  ghost function Completed(x: Execution): seq<Event>
    requires x.stop <= |x.order|
  {
    Blocks(x.order, x.runs, x.stop)
  }

  /** The loop has gone through the first `k` steps and reported their blocks. */
  ghost predicate Reached(x: Execution, k: nat) {
    && |x.order| == |x.steps| && (forall id :: id in x.order ==> id in Ids(x.steps))
    && k <= |x.order| && x.events == Blocks(x.order, x.runs, k)
    && forall i :: 0 <= i < k ==> Proceeds(x.cancelled, x.runs, i)
  }

  /** What one turn reports: the step's block, or the end of the run. */
  ghost predicate Turn(steps: seq<ProvisionStep>, id: StepId, cancelled: bool, run: StepRun, events: seq<Event>, error: Option<RunError>)
    requires id in Ids(steps)
  {
    match error
    case None => !cancelled && run.failure.None? && events == Block(id, run)
    case Some(e) => (cancelled || run.failure.Some?) && Aborts(steps, id, cancelled, run, events, e)
  }

  lemma GoesOn(x: Execution, k: nat, more: seq<Event>)
    requires Reached(x, k) && k < |x.order| && Turn(x.steps, x.order[k], x.cancelled(k), x.runs(k), more, None)
    ensures Reached(x.(events := x.events + more), k + 1)
  {
  }

  lemma Stops(x: Execution, k: nat, more: seq<Event>, error: RunError)
    requires Reached(x, k) && k < |x.order| && Turn(x.steps, x.order[k], x.cancelled(k), x.runs(k), more, Some(error))
    ensures IsExecution(x.(stop := k, events := x.events + more, result := Failure(error)))
  {
  }

  lemma Completes(x: Execution)
    requires Reached(x, |x.order|)
    ensures IsExecution(x.(stop := |x.order|, events := x.events + [PlanFinished(true)], result := Success(())))
  {
  }

  /** Run the plan. `cancelled(k)` is what the check before the k-th step observes, `runs(k)` what executing it does. */
  method Run(steps: seq<ProvisionStep>, cancelled: nat -> bool, runs: nat -> StepRun)
    returns (events: seq<Event>, r: Result<(), RunError>, ghost x: Execution)
    requires TopologicalSort.LoopEnds(steps)
    ensures x == Execution(steps, TopologicalSort.KahnOrder(steps), cancelled, x.runs, x.stop, events, r)
    ensures forall k: nat :: x.runs(k) == Shown(runs(k))
    ensures Known(steps) && TopologicalSort.PassesTest(steps) ==> IsExecution(x)
    ensures Known(steps) && DistinctIds(steps) && Acyclic(steps) ==> IsExecution(x) && Ordered(x)
    ensures !(Known(steps) && TopologicalSort.PassesTest(steps)) ==> events == [] && r.Failure? && r.error.InvalidPlan?
  {
    var sort := TopologicalSort.Sort(steps);
    ghost var show := (run: StepRun) => Shown(run);
    ghost var shown := (k: nat) => show(runs(k));
    if DistinctIds(steps) { TopologicalSort.DistinctRootsOnce(steps); }
    if sort.Failure? {
      events, r := [], Failure(InvalidPlan(sort.error));
      x := Execution(steps, TopologicalSort.KahnOrder(steps), cancelled, shown, 0, events, r);
    } else {
      OrderIsOfSteps(steps);
      events, r := RunSorted(steps, sort.value, cancelled, runs, shown, show);
      ghost var stop: nat :| IsExecution(Execution(steps, sort.value, cancelled, shown, stop, events, r));
      x := Execution(steps, sort.value, cancelled, shown, stop, events, r);
    }
  }

  lemma OrderIsOfSteps(steps: seq<ProvisionStep>)
    ensures forall id :: id in TopologicalSort.KahnOrder(steps) ==> id in Ids(steps)
  {
    forall id | id in TopologicalSort.KahnOrder(steps) ensures id in Ids(steps) {
      assert id in TopologicalSort.Pops(steps, |steps|).sorted;
      SortLoop.PoppedIsStep(steps, id);
    }
  }

  /** The loop over the sorted ids, and the end of the plan. */
  method RunSorted(steps: seq<ProvisionStep>, order: seq<StepId>, cancelled: nat -> bool, runs: nat -> StepRun,
                   ghost shown: nat -> StepRun, ghost show: StepRun -> StepRun)
    returns (events: seq<Event>, r: Result<(), RunError>)
    requires |order| == |steps| && forall id :: id in order ==> id in Ids(steps)
    requires IsShow(show) && forall k: nat :: shown(k) == show(runs(k))
    ensures exists stop: nat :: IsExecution(Execution(steps, order, cancelled, shown, stop, events, r))
  {
    var error;
    ghost var x := Execution(steps, order, cancelled, shown, 0, [], Success(()));
    events, error, x := RunTurns(steps, order, cancelled, runs, x, show);
    if error.Some? {
      r := Failure(error.value);
      assert x == Execution(steps, order, cancelled, shown, x.stop, events, r);
    } else {
      Completes(x);
      events, r := events + [PlanFinished(true)], Success(());
      assert x.(stop := |order|, events := events) == Execution(steps, order, cancelled, shown, |order|, events, r);
    }
  }

  method RunTurns(steps: seq<ProvisionStep>, order: seq<StepId>, cancelled: nat -> bool, runs: nat -> StepRun,
                  ghost start: Execution, ghost show: StepRun -> StepRun)
    returns (events: seq<Event>, error: Option<RunError>, ghost x: Execution)
    requires Reached(start, 0) && start.steps == steps && start.order == order && start.cancelled == cancelled && start.result == Success(())
    requires IsShow(show) && forall k: nat :: start.runs(k) == show(runs(k))
    ensures x == start.(stop := x.stop, events := events, result := if error.None? then Success(()) else Failure(error.value))
    ensures if error.None? then Reached(x, |order|) else IsExecution(x)
  {
    events, x := [], start;
    for k := 0 to |order|
      invariant x == start.(events := events) && Reached(x, k)
    {
      events, error, x := TakeTurn(steps, events, order[k], cancelled(k), runs(k), x, k, show);
      if error.Some? {
        return events, error, x;
      }
    }
    error := None;
  }

  /** One turn, seen in the run as a whole. */
  method TakeTurn(steps: seq<ProvisionStep>, events0: seq<Event>, id: StepId, cancelled: bool, run: StepRun,
                  ghost x0: Execution, ghost k: nat, ghost show: StepRun -> StepRun)
    returns (events: seq<Event>, error: Option<RunError>, ghost x: Execution)
    requires Reached(x0, k) && k < |x0.order| && x0.events == events0 && x0.steps == steps
    requires x0.order[k] == id && x0.cancelled(k) == cancelled && x0.runs(k) == show(run) && IsShow(show)
    ensures error.None? ==> x == x0.(events := events) && Reached(x, k + 1)
    ensures error.Some? ==> x == x0.(stop := k, events := events, result := Failure(error.value)) && IsExecution(x)
  {
    var more;
    more, error := RunOne(steps, id, cancelled, run, show);
    events := events0 + more;
    if error.Some? {
      Stops(x0, k, more, error.value);
      x := x0.(stop := k, events := events, result := Failure(error.value));
    } else {
      GoesOn(x0, k, more);
      x := x0.(events := events);
    }
  }

  /** One turn of the loop: look the step up, check the token, run the step, report. */
  method RunOne(steps: seq<ProvisionStep>, id: StepId, cancelled: bool, run: StepRun, ghost show: StepRun -> StepRun)
    returns (events: seq<Event>, error: Option<RunError>)
    requires id in Ids(steps) && IsShow(show)
    ensures Turn(steps, id, cancelled, show(run), events, error)
  {
    assert show(run) == Shown(run);
    var found := FindStep(steps, id);
    if found.None? {
      assert false;
    }
    if cancelled {
      return [PlanFinished(false)], Some(Cancelled(id));
    }
    events := StreamStep(id, run.lines);
    match run.failure {
      case None =>
        return events + [StepFinished(id)], None;
      case Some(failure) =>
        return events + [StepFailed(id, Message(found.value, failure)), PlanFinished(false)],
               Some(StepError(id, failure.error));
    }
  }

  /** Announce a step and forward the lines it prints while running, each one scrubbed. */
  method StreamStep(id: StepId, lines: seq<string>) returns (events: seq<Event>)
    ensures events == [StepStarted(id)] + Outputs(id, Redaction.RedactAll(lines))
  {
    events := StreamLines(id, lines);
    events := [StepStarted(id)] + events;
  }

  method StreamLines(id: StepId, lines: seq<string>) returns (events: seq<Event>)
    ensures events == Outputs(id, Redaction.RedactAll(lines))
  {
    events := [];
    for i := 0 to |lines|
      invariant |events| == i && forall k :: 0 <= k < i ==> events[k] == StepOutput(id, Redaction.RedactAll(lines)[k])
    {
      var event := StreamLine(id, lines, i);
      events := events + [event];
    }
    OutputsAre(id, Redaction.RedactAll(lines), events);
  }

  /** One line, scrubbed before it enters the event stream. */
  method StreamLine(id: StepId, lines: seq<string>, i: nat) returns (event: Event)
    requires i < |lines|
    ensures event == StepOutput(id, Redaction.RedactAll(lines)[i])
  {
    var line := Redaction.RedactKubeconfigSecrets(lines[i]);
    Redaction.RedactAllAt(lines, i);
    return StepOutput(id, line);
  }

  lemma OutputsAre(id: StepId, lines: seq<string>, events: seq<Event>)
    requires |events| == |lines| && forall k :: 0 <= k < |lines| ==> events[k] == StepOutput(id, lines[k])
    ensures events == Outputs(id, lines)
  {
  }

  lemma OrderIsComplete(steps: seq<ProvisionStep>, order: seq<StepId>)
    requires IsTopologicalOrder(steps, order)
    ensures forall id :: id in order <==> id in Ids(steps)
    ensures |order| == |steps|
  {
    forall id ensures id in order <==> id in Ids(steps) {
      assert id in multiset(order) <==> id in multiset(Ids(steps));
    }
    assert |multiset(order)| == |multiset(Ids(steps))|;
  }

  lemma OrderHasNoDup(steps: seq<ProvisionStep>, order: seq<StepId>)
    requires DistinctIds(steps) && IsTopologicalOrder(steps, order)
    ensures NoDup(order)
  {
    forall i | 0 <= i < |order| ensures multiset(order)[order[i]] <= 1 { NoDupMultiplicity(Ids(steps), order[i]); }
    NoDupByMultiplicity(order);
  }

  // ---- where events sit in a trace ----

  lemma {:induction false} BlocksPrefix(order: seq<StepId>, runs: nat -> StepRun, i: nat, n: nat)
    requires i <= n <= |order|
    ensures Blocks(order, runs, i) <= Blocks(order, runs, n)
    decreases n
  {
    if i < n {
      BlocksPrefix(order, runs, i, n - 1);
    }
  }

  /** Blocks contain no terminal events, and a start sits right after the finished steps before it. */
  lemma {:induction false} BlockAt(order: seq<StepId>, runs: nat -> StepRun, n: nat, j: nat)
    requires n <= |order| && j < |Blocks(order, runs, n)|
    ensures var e := Blocks(order, runs, n)[j];
      && (e.StepStarted? || e.StepOutput? || e.StepFinished?)
      && (e.StepStarted? ==> exists i :: 0 <= i < n && e.id == order[i] && j == |Blocks(order, runs, i)|)
      && (e.StepFinished? ==> exists i :: 0 <= i < n && e.id == order[i])
    decreases n
  {
    var before := Blocks(order, runs, n - 1);
    var e := Blocks(order, runs, n)[j];
    if j < |before| {
      BlockAt(order, runs, n - 1, j);
      assert e == before[j];
    } else {
      assert e == Block(order[n - 1], runs(n - 1))[j - |before|];
    }
  }

  /** The lines of a block event are scrubbed lines of the step's run. */
  lemma {:induction false} OutputInBlocks(order: seq<StepId>, runs: nat -> StepRun, n: nat, j: nat) returns (i: nat, k: nat)
    requires n <= |order| && j < |Blocks(order, runs, n)| && Blocks(order, runs, n)[j].StepOutput?
    ensures i < n && k < |runs(i).lines| && Blocks(order, runs, n)[j] == StepOutput(order[i], runs(i).lines[k])
    decreases n
  {
    var before := Blocks(order, runs, n - 1);
    if j < |before| {
      i, k := OutputInBlocks(order, runs, n - 1, j);
    } else {
      i, k := n - 1, j - |before| - 1;
      assert Blocks(order, runs, n)[j] == Block(order[i], runs(i))[k + 1];
    }
  }

  lemma {:induction false} FinishedInBlocks(order: seq<StepId>, runs: nat -> StepRun, n: nat, i: nat) returns (j: nat)
    requires i < n <= |order|
    ensures j < |Blocks(order, runs, n)| && Blocks(order, runs, n)[j] == StepFinished(order[i])
    decreases n
  {
    if i < n - 1 {
      j := FinishedInBlocks(order, runs, n - 1, i);
    } else {
      j := |Blocks(order, runs, n)| - 1;
    }
  }

  // ---- the safety of every run ----

  /** Every event of a run: a block event, or one of the last few. */
  lemma EventAt(x: Execution, j: nat)
    requires IsExecution(x) && j < |x.events|
    ensures x.events[j].PlanFinished? <==> j == |x.events| - 1
    ensures x.events[j].StepFailed? ==> j == |x.events| - 2 && x.stop < |x.order|
    ensures x.events[j].StepStarted? ==>
      exists i :: 0 <= i < |x.order| && i <= x.stop && (i == x.stop ==> !x.cancelled(i))
                  && x.events[j].id == x.order[i] && j == |Blocks(x.order, x.runs, i)|
    ensures x.events[j].StepFinished? ==> exists i :: 0 <= i < x.stop && x.events[j].id == x.order[i]
  {
    var blocks := Completed(x);
    if j < |blocks| {
      BlockAt(x.order, x.runs, x.stop, j);
      assert x.events[j] == blocks[j];
    } else {
      assert x.events[j] == x.events[|blocks|..][j - |blocks|];
      if x.stop < |x.order| && !x.cancelled(x.stop) {
        assert x.events[j].StepStarted? ==> j == |blocks|;
      }
    }
  }

  /** No secret enters the event stream: every line of output is the scrubbed form of a line its step printed. */
  lemma OutputIsScrubbed(x: Execution, runs: nat -> StepRun, j: nat) returns (i: nat, k: nat)
    requires IsExecution(x) && (forall i: nat :: x.runs(i) == Shown(runs(i))) && j < |x.events| && x.events[j].StepOutput?
    ensures i <= x.stop && i < |x.order| && k < |runs(i).lines| && x.events[j].id == x.order[i]
    ensures Redaction.IsRedactionOf(Redaction.KUBECONFIG_SECRET_KEYS, runs(i).lines[k], x.events[j].line)
  {
    i, k := OutputAt(x, j);
    Redaction.RedactAllAt(runs(i).lines, k);
  }

  lemma OutputAt(x: Execution, j: nat) returns (i: nat, k: nat)
    requires IsExecution(x) && j < |x.events| && x.events[j].StepOutput?
    ensures i <= x.stop && i < |x.order| && k < |x.runs(i).lines| && x.events[j] == StepOutput(x.order[i], x.runs(i).lines[k])
  {
    var blocks := Completed(x);
    if j < |blocks| {
      assert x.events[j] == blocks[j];
      i, k := OutputInBlocks(x.order, x.runs, x.stop, j);
    } else {
      assert x.events[j] == x.events[|blocks|..][j - |blocks|];
      i, k := x.stop, j - |blocks| - 1;
    }
  }

  /** A step starts only after everything it needs has finished. */
  lemma StartsAfterDependencies(x: Execution, j: nat, needed: StepId) returns (f: nat)
    requires IsExecution(x) && Ordered(x) && Known(x.steps)
    requires j < |x.events| && x.events[j].StepStarted? && Needs(x.steps, x.events[j].id, needed)
    ensures f < j && x.events[f] == StepFinished(needed)
  {
    EventAt(x, j);
    var i :| 0 <= i < |x.order| && i <= x.stop && x.events[j].id == x.order[i] && j == |Blocks(x.order, x.runs, i)|;
    var d := DependencyPosition(x.steps, x.order, i, needed);
    f := FinishedBefore(x, i, d);
  }

  lemma FinishedBefore(x: Execution, i: nat, d: nat) returns (f: nat)
    requires IsExecution(x) && d < i <= x.stop
    ensures f < |Blocks(x.order, x.runs, i)| && f < |x.events| && x.events[f] == StepFinished(x.order[d])
  {
    f := FinishedInBlocks(x.order, x.runs, i, d);
    BlocksPrefix(x.order, x.runs, i, x.stop);
    assert x.events[f] == Completed(x)[f];
  }

  lemma DependencyPosition(steps: seq<ProvisionStep>, order: seq<StepId>, i: nat, needed: StepId) returns (d: nat)
    requires IsTopologicalOrder(steps, order) && Known(steps) && i < |order| && Needs(steps, order[i], needed)
    ensures d < i && order[d] == needed
  {
    OrderIsComplete(steps, order);
    var s :| 0 <= s < |steps| && steps[s].id == order[i] && needed in steps[s].dependsOn;
    assert needed in Ids(steps);
    d :| 0 <= d < |order| && order[d] == needed;
    assert Needs(steps, order[i], order[d]);
  }

  /** In any run, nothing starts after a failure. */
  lemma NothingStartsAfterFailure(x: Execution, i: nat, j: nat)
    requires IsExecution(x) && i < j < |x.events| && x.events[i].StepFailed?
    ensures !x.events[j].StepStarted?
  {
    EventAt(x, i);
    EventAt(x, j);
  }

  lemma NoStartAfterCancellation(x: Execution, c: nat, i: nat, j: nat)
    requires IsExecution(x) && NoDup(x.order) && c <= i < |x.order| && j < |x.events| && x.cancelled(c)
    ensures x.events[j] != StepStarted(x.order[i])
  {
    EventAt(x, j);
    StopsByCancellation(x.order, x.cancelled, x.runs, x.stop, c);
  }

  lemma StartsOnce(x: Execution, i: nat, j: nat)
    requires IsExecution(x) && NoDup(x.order) && i < j < |x.events| && x.events[i].StepStarted?
    ensures x.events[i] != x.events[j]
  {
    EventAt(x, i);
    EventAt(x, j);
  }

  /** With distinct ids nothing starts at or after an observed cancellation, and no step starts twice. */
  lemma NothingStartsTooLate(x: Execution)
    requires IsExecution(x) && Ordered(x)
    ensures forall c, i, j :: 0 <= c <= i < |x.order| && 0 <= j < |x.events| && x.cancelled(c) ==>
      x.events[j] != StepStarted(x.order[i])
    ensures forall i, j :: 0 <= i < j < |x.events| && x.events[i].StepStarted? ==> x.events[i] != x.events[j]
  {
    OrderHasNoDup(x.steps, x.order);
    forall c, i, j | 0 <= c <= i < |x.order| && 0 <= j < |x.events| && x.cancelled(c)
      ensures x.events[j] != StepStarted(x.order[i])
    {
      NoStartAfterCancellation(x, c, i, j);
    }
    forall i, j | 0 <= i < j < |x.events| && x.events[i].StepStarted? ensures x.events[i] != x.events[j] {
      StartsOnce(x, i, j);
    }
  }

  /** In any run exactly one `PlanFinished` is sent, last, and it reports the result of the run. */
  lemma PlanFinishedOnceAndLast(x: Execution)
    requires IsExecution(x)
    ensures x.events != [] && forall j :: 0 <= j < |x.events| ==> (x.events[j].PlanFinished? <==> j == |x.events| - 1)
    ensures x.events[|x.events| - 1] == PlanFinished(x.result.Success?)
  {
    forall j | 0 <= j < |x.events| ensures x.events[j].PlanFinished? <==> j == |x.events| - 1 {
      EventAt(x, j);
    }
  }

  /** With distinct ids it reports success exactly when every step finished. */
  lemma SuccessMeansAllFinished(x: Execution)
    requires IsExecution(x) && Ordered(x)
    ensures x.result.Success? <==> forall id :: id in Ids(x.steps) ==> StepFinished(id) in x.events
  {
    OrderIsComplete(x.steps, x.order);
    OrderHasNoDup(x.steps, x.order);
    if x.result.Success? {
      forall id | id in Ids(x.steps) ensures StepFinished(id) in x.events {
        var i :| 0 <= i < |x.order| && x.order[i] == id;
        var f := FinishedInBlocks(x.order, x.runs, x.stop, i);
        assert x.events[f] == Completed(x)[f];
      }
    } else {
      var unfinished := x.order[x.stop];
      forall j | 0 <= j < |x.events| ensures x.events[j] != StepFinished(unfinished) {
        EventAt(x, j);
      }
      assert unfinished in Ids(x.steps);
    }
  }

  /** It succeeds exactly when no check saw a cancellation and no step failed. */
  lemma RunSucceedsIff(x: Execution)
    requires IsExecution(x)
    ensures x.result.Success? <==> forall k :: 0 <= k < |x.order| ==> !x.cancelled(k) && x.runs(k).failure.None?
  {
    if x.stop < |x.order| { assert !Proceeds(x.cancelled, x.runs, x.stop); }
    ProceededBefore(x);
  }

  lemma ProceededBefore(x: Execution)
    requires IsExecution(x)
    ensures forall k :: 0 <= k < x.stop ==> !x.cancelled(k) && x.runs(k).failure.None?
  {
    forall k | 0 <= k < x.stop ensures !x.cancelled(k) && x.runs(k).failure.None? { assert Proceeds(x.cancelled, x.runs, k); }
  }

  /** A step that installs Cilium. */
  predicate InstallsCilium(step: ProvisionStep) {
    step.id == "cni-cilium-install" && step.action.Command? && step.action.command.CiliumInstall?
  }

  /**
   * How a run ends that no cancellation ended: with the failure of the first step that failed, its own error in the
   * result, and in the event that error, followed by the diagnosis exactly for a Cilium install that failed uncancelled.
   */
  lemma FailureIsReported(x: Execution)
    requires IsExecution(x) && x.stop < |x.order| && !x.cancelled(x.stop)
    ensures x.runs(x.stop).failure.Some? && forall k :: 0 <= k < x.stop ==> x.runs(k).failure.None?
    ensures x.result == Failure(StepError(x.order[x.stop], x.runs(x.stop).failure.value.error))
    ensures |x.events| >= 2 && x.events[|x.events| - 2].StepFailed? && x.events[|x.events| - 2].id == x.order[x.stop]
    ensures var f, text := x.runs(x.stop).failure.value, x.events[|x.events| - 2].error;
      && (f.cancelled || f.diagnosis.None? ==> text == f.error)
      && ((forall step :: step in x.steps && step.id == x.order[x.stop] ==> !InstallsCilium(step)) ==> text == f.error)
      && (!f.cancelled && f.diagnosis.Some? && (forall step :: step in x.steps && step.id == x.order[x.stop] ==> InstallsCilium(step)) ==>
            text == f.error + "\n" + f.diagnosis.value)
  {
    ProceededBefore(x);
    var tail := x.events[|Completed(x)|..];
    assert Ends(x, tail);
    assert |tail| >= 2 && tail[|tail| - 2] == x.events[|x.events| - 2];
    var step := FindStep(x.steps, x.order[x.stop]).value;
    assert step in x.steps;
  }

  /** A cancellation ends the run before the step at which it was seen: nothing of that step is reported. */
  lemma CancellationIsReported(x: Execution)
    requires IsExecution(x) && x.stop < |x.order| && x.cancelled(x.stop)
    ensures x.result == Failure(Cancelled(x.order[x.stop]))
    ensures x.events == Blocks(x.order, x.runs, x.stop) + [PlanFinished(false)]
    ensures forall k :: 0 <= k < x.stop ==> !x.cancelled(k) && x.runs(k).failure.None?
  {
    ProceededBefore(x);
    assert x.events == Completed(x) + x.events[|Completed(x)|..];
  }
}
