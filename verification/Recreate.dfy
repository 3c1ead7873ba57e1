/** Destroying a cluster, and recreating one: a destroy phase and then a plan run, reported to the same panel. */
module Recreate {
  import opened Common
  import opened Plan
  import opened RunPlan
  import opened OpPanel
  import BuildPlan
  import Operations

  /** What became of `kind delete`; a failure is tolerated only when the cluster is verifiably gone. */
  datatype Deletion = Deleted | CancelledMeanwhile | AlreadyGone | DeletionFailed(error: string)

  /** What the surroundings answer in a destroy phase; `Some` is an error. */
  datatype World = World(deletion: Deletion, context: Option<string>, record: Option<string>)

  const GONE: string := "cluster was already gone; cleanup continues"
  const CANCELLED: string := "cancelled"

  // ---- the destroy phase ----

  function DestroyOrder(removeRecord: bool): (order: seq<StepId>)
    ensures |order| == if removeRecord then 3 else 2
  {
    ["destroy-kind", "remove-kubeconfig"] + if removeRecord then ["remove-record"] else []
  }

  function DeletionError(deletion: Deletion): Option<string> {
    match deletion
    case CancelledMeanwhile => Some(CANCELLED)
    case DeletionFailed(error) => Some(error)
    case _ => None
  }

  /** The error of each step of the phase. */
  function ErrorAt(world: World, k: nat): Option<string> {
    if k == 0 then DeletionError(world.deletion) else if k == 1 then world.context else world.record
  }

  function DestroyRun(world: World, k: nat): StepRun {
    StepRun(if k == 0 && world.deletion.AlreadyGone? then [GONE] else [], None)
  }

  /** The phase came through its first `n` steps and reported them; it ended there or failed at the next. */
  ghost predicate IsDestroy(removeRecord: bool, world: World, n: nat, events: seq<Event>, result: Result<(), string>) {
    var order, runs := DestroyOrder(removeRecord), (k: nat) => DestroyRun(world, k);
    && n <= |order| && (forall k :: 0 <= k < n ==> ErrorAt(world, k).None?)
    && if n == |order| then result == Success(()) && events == Blocks(order, runs, n)
       else
         && ErrorAt(world, n).Some? && result == Failure(ErrorAt(world, n).value)
         && events == Blocks(order, runs, n) + [StepStarted(order[n]), StepFailed(order[n], ErrorAt(world, n).value)]
  }

  /** One synthetic step: announce it, forward its lines, report how it ended. */
  method ReportStep(id: StepId, lines: seq<string>, error: Option<string>) returns (events: seq<Event>)
    ensures error.None? ==> events == Block(id, StepRun(lines, None))
    ensures error.Some? ==> events == [StepStarted(id)] + Outputs(id, lines) + [StepFailed(id, error.value)]
  {
    events := [StepStarted(id)] + Outputs(id, lines);
    events := events + [if error.None? then StepFinished(id) else StepFailed(id, error.value)];
  }

  lemma NextBlock(order: seq<StepId>, runs: nat -> StepRun, n: nat)
    requires n < |order|
    ensures Blocks(order, runs, n + 1) == Blocks(order, runs, n) + Block(order[n], runs(n))
  {
  }

  /** How many steps of the phase go well. */
  function GoneThrough(removeRecord: bool, world: World): nat {
    if ErrorAt(world, 0).Some? then 0
    else if ErrorAt(world, 1).Some? then 1
    else if !removeRecord || ErrorAt(world, 2).Some? then 2
    else 3
  }

  /** Delete the cluster, remove its kubeconfig entries and, unless it is to be recreated, its record. */
  method DestroyPhase(removeRecord: bool, world: World) returns (events: seq<Event>, result: Result<(), string>)
    ensures IsDestroy(removeRecord, world, GoneThrough(removeRecord, world), events, result)
  {
    var error;
    events, error := DestroyStep(removeRecord, world, 0, []);
    if error.Some? {
      return events, Failure(error.value);
    }
    events, error := DestroyStep(removeRecord, world, 1, events);
    if error.Some? {
      return events, Failure(error.value);
    }
    if removeRecord {
      events, error := DestroyStep(removeRecord, world, 2, events);
      if error.Some? {
        return events, Failure(error.value);
      }
    }
    result := Success(());
  }

  /** One step of the phase, after those before it went well. */
  method DestroyStep(removeRecord: bool, world: World, k: nat, events0: seq<Event>) returns (events: seq<Event>, error: Option<string>)
    requires k < |DestroyOrder(removeRecord)| && forall i :: 0 <= i < k ==> ErrorAt(world, i).None?
    requires events0 == Blocks(DestroyOrder(removeRecord), (k: nat) => DestroyRun(world, k), k)
    ensures error == ErrorAt(world, k)
    ensures error.None? ==> events == Blocks(DestroyOrder(removeRecord), (k: nat) => DestroyRun(world, k), k + 1)
    ensures error.Some? ==> IsDestroy(removeRecord, world, k, events, Failure(error.value))
  {
    var order := DestroyOrder(removeRecord);
    error := ErrorAt(world, k);
    events := ReportStep(order[k], DestroyRun(world, k).lines, error);
    if error.Some? {
      FailedReport(order[k], events, error.value);
    } else {
      NextBlock(order, (k: nat) => DestroyRun(world, k), k);
    }
    events := events0 + events;
  }

  lemma FailedReport(id: StepId, events: seq<Event>, error: string)
    requires events == [StepStarted(id)] + Outputs(id, []) + [StepFailed(id, error)]
    ensures events == [StepStarted(id), StepFailed(id, error)]
  {
  }

  // ---- what became of the cluster decides the phase ----

  /** What one step of the phase reports: its lines, and how it ended. */
  function Report(id: StepId, lines: seq<string>, error: Option<string>): seq<Event> {
    [StepStarted(id)] + Outputs(id, lines) + [if error.None? then StepFinished(id) else StepFailed(id, error.value)]
  }

  /** The deletion went well, or the cluster is verifiably gone. */
  predicate Gone(world: World) { world.deletion.Deleted? || world.deletion.AlreadyGone? }

  /** The phase succeeds exactly when the cluster is gone and everything that follows its deletion worked. */
  lemma DestroySucceedsIff(removeRecord: bool, world: World, n: nat, events: seq<Event>, result: Result<(), string>)
    requires IsDestroy(removeRecord, world, n, events, result)
    ensures result.Success? <==> Gone(world) && world.context.None? && (removeRecord ==> world.record.None?)
    ensures world.deletion.CancelledMeanwhile? ==> result == Failure("cancelled")
    ensures world.deletion.DeletionFailed? ==> result == Failure(world.deletion.error)
    ensures Gone(world) && world.context.Some? ==> result == Failure(world.context.value)
    ensures Gone(world) && world.context.None? && removeRecord && world.record.Some? ==> result == Failure(world.record.value)
  {
    assert ErrorAt(world, 0) == DeletionError(world.deletion);
    assert ErrorAt(world, 1) == world.context && ErrorAt(world, 2) == world.record;
  }

  /** What the failed deletion of a cluster that may still exist reports: that, and no other step. */
  lemma FailedDeletionTouchesNothing(removeRecord: bool, world: World, n: nat, events: seq<Event>, result: Result<(), string>)
    requires IsDestroy(removeRecord, world, n, events, result) && !Gone(world)
    ensures result.Failure? && events == Report("destroy-kind", [], Some(result.error))
  {
    DestroySucceedsIff(removeRecord, world, n, events, result);
    assert ErrorAt(world, 0) == DeletionError(world.deletion);
    NoBlocks(DestroyOrder(removeRecord), (k: nat) => DestroyRun(world, k));
  }

  lemma NoBlocks(order: seq<StepId>, runs: nat -> StepRun)
    ensures Blocks(order, runs, 0) == []
  {
  }

  lemma BlockIsReport(id: StepId, run: StepRun)
    ensures Block(id, run) == Report(id, run.lines, None)
  {
  }

  lemma TwoBlocks(order: seq<StepId>, runs: nat -> StepRun)
    requires |order| >= 2
    ensures Blocks(order, runs, 1) == Block(order[0], runs(0))
    ensures Blocks(order, runs, 2) == Block(order[0], runs(0)) + Block(order[1], runs(1))
    ensures |order| == 3 ==> Blocks(order, runs, 3) == Block(order[0], runs(0)) + Block(order[1], runs(1)) + Block(order[2], runs(2))
  {
    NoBlocks(order, runs);
    NextBlock(order, runs, 0);
    NextBlock(order, runs, 1);
    if |order| == 3 { NextBlock(order, runs, 2); }
  }

  /** How far the phase gets once the cluster is gone. */
  lemma GoesThrough(removeRecord: bool, world: World, n: nat, events: seq<Event>, result: Result<(), string>)
    requires IsDestroy(removeRecord, world, n, events, result) && Gone(world)
    ensures n == if world.context.Some? then 1 else if removeRecord && world.record.None? then 3 else 2
  {
    assert ErrorAt(world, 0) == None && ErrorAt(world, 1) == world.context && ErrorAt(world, 2) == world.record;
  }

  /** Otherwise the kubeconfig entries follow, and then the record if it is to go and the entries went. */
  lemma DestroyGoesOn(removeRecord: bool, world: World, n: nat, events: seq<Event>, result: Result<(), string>)
    requires IsDestroy(removeRecord, world, n, events, result) && Gone(world)
    ensures var first := Report("destroy-kind", if world.deletion.AlreadyGone? then ["cluster was already gone; cleanup continues"] else [], None);
      var second := Report("remove-kubeconfig", [], world.context);
      events == first + second + if removeRecord && world.context.None? then Report("remove-record", [], world.record) else []
  {
    var order, runs := DestroyOrder(removeRecord), (k: nat) => DestroyRun(world, k);
    GoesThrough(removeRecord, world, n, events, result);
    TwoBlocks(order, runs);
    BlockIsReport(order[0], runs(0));
    BlockIsReport(order[1], runs(1));
    if removeRecord { BlockIsReport(order[2], runs(2)); }
    assert ErrorAt(world, 1) == world.context && ErrorAt(world, 2) == world.record;
  }

  lemma DestroyIdsDiffer(removeRecord: bool)
    ensures NoDup(DestroyOrder(removeRecord))
  {
  }

  /** The rows of a destroy phase: the finished steps, all done, and at most the one that failed. */
  function DestroyRows(removeRecord: bool, n: nat): seq<StepUi>
    requires n <= |DestroyOrder(removeRecord)|
  {
    var order := DestroyOrder(removeRecord);
    DoneSteps(order[..n]) + if n < |order| then [StepUi(order[n], Failed)] else []
  }

  /** After any destroy phase a fresh panel shows its steps in order, all done but for the one that failed. */
  lemma DestroyLeavesTimeline(p: Panel, removeRecord: bool, world: World, n: nat, events: seq<Event>, result: Result<(), string>)
    requires IsDestroy(removeRecord, world, n, events, result) && p.steps == [] && |p.output| <= OP_OUTPUT_CAP
    ensures ApplyAll(p, events).steps == DestroyRows(removeRecord, n)
    ensures result.Success? ==> ApplyAll(p, events).steps == DoneSteps(DestroyOrder(removeRecord))
  {
    var order, runs := DestroyOrder(removeRecord), (k: nat) => DestroyRun(world, k);
    DestroyIdsDiffer(removeRecord);
    BlocksTimeline(p, order, runs, n);
    var q := ApplyAll(p, Blocks(order, runs, n));
    if n == |order| {
      assert order[..n] == order;
    } else {
      var error := ErrorAt(world, n).value;
      ApplyConcat(p, Blocks(order, runs, n), [StepStarted(order[n]), StepFailed(order[n], error)]);
      DoneStepsAreNot([], order, n);
      FailedRow(q, order[n], error);
    }
  }

  lemma FailedRow(q: Panel, id: StepId, error: string)
    requires NewStep(q.steps, id)
    ensures ApplyAll(q, [StepStarted(id), StepFailed(id, error)]).steps == q.steps + [StepUi(id, Failed)]
  {
    TwoApplied(q, StepStarted(id), StepFailed(id, error));
    SetTwice(q.steps, id, Running, Failed);
    SetNew(q.steps, id, Failed);
  }

  // ---- recreating: destroy, build, run ----

  datatype OpError = DestroyError(reason: string) | SpecError(reason: string) | PlanError(error: RunError) | SaveError(reason: string)

  /** What a recreation reported: the destroy phase, and the run of the new plan when it came to that. */
  datatype Recreation = Recreation(world: World, n: nat, destroyed: seq<Event>, result: Result<(), string>,
                                   drafts: seq<BuildPlan.Draft>, run: Option<Execution>)

  ghost predicate IsRecreation(in_: BuildPlan.Inputs, r: Recreation) {
    && IsDestroy(false, r.world, r.n, r.destroyed, r.result)
    && (r.run.Some? ==>
          && r.result.Success? && IsExecution(r.run.value) && Ordered(r.run.value)
          && BuildPlan.Built(in_, r.drafts) && BuildPlan.Named(r.drafts, BuildPlan.StepsFor(in_.spec))
          && r.run.value.steps == BuildPlan.Finish(r.drafts) && r.run.value.order == Ids(r.run.value.steps))
  }

  /** Everything the recreation sends to its panel. */
  ghost function Reported(r: Recreation): seq<Event> {
    r.destroyed + if r.run.Some? then r.run.value.events else []
  }

  /** The run of the plan is one of this plan under these outcomes, each line scrubbed. */
  ghost predicate IsRunOf(x: Execution, steps: seq<ProvisionStep>, cancelled: nat -> bool, runs: nat -> StepRun) {
    && IsExecution(x) && Ordered(x) && x.steps == steps && x.order == Ids(steps) && x.cancelled == cancelled
    && forall k: nat :: x.runs(k) == Shown(runs(k))
  }

  /** What the operation reports in the end: the first error on the way, if there was one. */
  function Outcome(r: Recreation, invalid: Option<string>, save: Option<string>): Result<(), OpError> {
    if r.result.Failure? then Failure(DestroyError(r.result.error))
    else if invalid.Some? then Failure(SpecError(invalid.value))
    else if r.run.Some? && r.run.value.result.Failure? then Failure(PlanError(r.run.value.result.error))
    else if save.Some? then Failure(SaveError(save.value))
    else Success(())
  }

  /** The recreation these surroundings lead to: the plan runs exactly when the destroy phase went well and the spec is valid. */
  ghost predicate Recreates(in_: BuildPlan.Inputs, invalid: Option<string>, world: World, cancelled: nat -> bool,
                            runs: nat -> StepRun, r: Recreation)
  {
    && IsRecreation(in_, r) && r.world == world
    && (r.run.Some? <==> r.result.Success? && invalid.None?)
    && (r.run.Some? ==> IsRunOf(r.run.value, BuildPlan.Finish(r.drafts), cancelled, runs))
  }

  /** A recreation succeeds exactly when nothing on its way went wrong. */
  lemma RecreateSucceedsIff(in_: BuildPlan.Inputs, invalid: Option<string>, world: World, cancelled: nat -> bool,
                            runs: nat -> StepRun, r: Recreation, save: Option<string>)
    requires Recreates(in_, invalid, world, cancelled, runs, r)
    ensures Outcome(r, invalid, save).Success? <==>
      && Gone(world) && world.context.None? && invalid.None? && save.None?
      && forall k :: 0 <= k < |r.drafts| ==> !cancelled(k) && runs(k).failure.None?
    ensures r.run.Some? <==> Gone(world) && world.context.None? && invalid.None?
  {
    DestroySucceedsIff(false, r.world, r.n, r.destroyed, r.result);
    if r.run.Some? { RunSucceedsIff(r.run.value); }
  }

  /** The first thing that went wrong is what is reported. */
  lemma RecreateReportsTheFirstError(in_: BuildPlan.Inputs, invalid: Option<string>, world: World, cancelled: nat -> bool,
                                     runs: nat -> StepRun, r: Recreation, save: Option<string>)
    requires Recreates(in_, invalid, world, cancelled, runs, r)
    ensures FirstError(world, invalid, r.run, save, Outcome(r, invalid, save))
  {
    FirstErrorIsReported(r, invalid, save);
  }

  /** In the order in which things are tried: the deletion, the entries, the spec, the plan, the record. */
  ghost predicate FirstError(world: World, invalid: Option<string>, run: Option<Execution>, save: Option<string>, result: Result<(), OpError>) {
    && (world.deletion.CancelledMeanwhile? ==> result == Failure(DestroyError("cancelled")))
    && (world.deletion.DeletionFailed? ==> result == Failure(DestroyError(world.deletion.error)))
    && (Gone(world) && world.context.Some? ==> result == Failure(DestroyError(world.context.value)))
    && (Gone(world) && world.context.None? && invalid.Some? ==> result == Failure(SpecError(invalid.value)))
    && (run.Some? && run.value.result.Failure? ==> result == Failure(PlanError(run.value.result.error)))
    && (run.Some? && run.value.result.Success? && save.Some? ==> result == Failure(SaveError(save.value)))
  }

  lemma FirstErrorIsReported(r: Recreation, invalid: Option<string>, save: Option<string>)
    requires IsDestroy(false, r.world, r.n, r.destroyed, r.result)
    requires r.run.Some? <==> r.result.Success? && invalid.None?
    ensures FirstError(r.world, invalid, r.run, save, Outcome(r, invalid, save))
  {
    DestroySucceedsIff(false, r.world, r.n, r.destroyed, r.result);
  }

  /** Destroy without removing the record, then build and run the plan of the new spec, then save the record. */
  method DoRecreate(in_: BuildPlan.Inputs, invalid: Option<string>, world: World, cancelled: nat -> bool, runs: nat -> StepRun,
                    save: Option<string>)
    returns (events: seq<Event>, result: Result<(), OpError>)
    ensures exists r :: Recreates(in_, invalid, world, cancelled, runs, r) && events == Reported(r) && result == Outcome(r, invalid, save)
  {
    var destroyed, more, made;
    events, destroyed := DestroyPhase(false, world);
    ghost var r := Recreation(world, GoneThrough(false, world), events, destroyed, [], None);
    if destroyed.Failure? {
      result := Failure(DestroyError(destroyed.error));
    } else {
      ghost var drafts, run;
      more, made, drafts, run := CreatePhase(in_, invalid, cancelled, runs);
      r := r.(drafts := drafts, run := run);
      events := events + more;
      result := if made.Success? && save.Some? then Failure(SaveError(save.value)) else made;
    }
    Reports(in_, invalid, world, cancelled, runs, r);
    assert result == Outcome(r, invalid, save);
  }

  /** Build the plan of the spec and run it. */
  method CreatePhase(in_: BuildPlan.Inputs, invalid: Option<string>, cancelled: nat -> bool, runs: nat -> StepRun)
    returns (events: seq<Event>, result: Result<(), OpError>, ghost drafts: seq<BuildPlan.Draft>, ghost run: Option<Execution>)
    ensures result == Outcome(Recreation(World(Deleted, None, None), 2, [], Success(()), drafts, run), invalid, None)
    ensures events == if run.Some? then run.value.events else []
    ensures run.Some? <==> invalid.None?
    ensures run.Some? ==> BuildPlan.Built(in_, drafts) && BuildPlan.Named(drafts, BuildPlan.StepsFor(in_.spec))
    ensures run.Some? ==> IsRunOf(run.value, BuildPlan.Finish(drafts), cancelled, runs)
  {
    var built;
    built, drafts := BuildPlan.Build(in_, invalid);
    if built.Failure? {
      return [], Failure(SpecError(built.error)), drafts, None;
    }
    var ran;
    events, ran := RunBuilt(in_, built.value.steps, drafts, cancelled, runs);
    ghost var x :| IsRunOf(x, built.value.steps, cancelled, runs) && x.events == events && x.result == ran;
    run := Some(x);
    result := if ran.Failure? then Failure(PlanError(ran.error)) else Success(());
  }

  lemma Reports(in_: BuildPlan.Inputs, invalid: Option<string>, world: World, cancelled: nat -> bool, runs: nat -> StepRun, r: Recreation)
    requires IsDestroy(false, r.world, r.n, r.destroyed, r.result) && r.world == world
    requires r.run.Some? <==> r.result.Success? && invalid.None?
    requires r.run.Some? ==> BuildPlan.Built(in_, r.drafts) && BuildPlan.Named(r.drafts, BuildPlan.StepsFor(in_.spec))
    requires r.run.Some? ==> IsRunOf(r.run.value, BuildPlan.Finish(r.drafts), cancelled, runs)
    ensures Recreates(in_, invalid, world, cancelled, runs, r)
    ensures Reported(r) == if r.run.Some? then r.destroyed + r.run.value.events else r.destroyed
  {
  }

  /** A built plan always sorts, in its own order, and runs. */
  method RunBuilt(in_: BuildPlan.Inputs, steps: seq<ProvisionStep>, ghost drafts: seq<BuildPlan.Draft>,
                  cancelled: nat -> bool, runs: nat -> StepRun)
    returns (events: seq<Event>, result: Result<(), RunError>)
    requires BuildPlan.Built(in_, drafts) && steps == BuildPlan.Finish(drafts)
    ensures exists x :: IsRunOf(x, steps, cancelled, runs) && x.events == events && x.result == result
  {
    BuildPlan.LinkedIsChain(drafts);
    BuildPlan.ChainSorts(steps);
    ghost var x;
    events, result, x := Run(steps, cancelled, runs);
    assert IsRunOf(x, steps, cancelled, runs);
  }

  // ---- the panel of a recreation ----

  lemma IdsAreNew(i: nat)
    requires i < 21
    ensures BuildPlan.AllIds()[i] != "destroy-kind" && BuildPlan.AllIds()[i] != "remove-kubeconfig"
  {
    if i < 11 { EarlyIdsAreNew(i); } else { LateIdsAreNew(i - 11); }
  }

  lemma EarlyIdsAreNew(i: nat)
    requires i < 11
    ensures BuildPlan.EarlyIds()[i] != "destroy-kind" && BuildPlan.EarlyIds()[i] != "remove-kubeconfig"
  {
    var ids := BuildPlan.EarlyIds();
    assert ids[0][0] == 'w' && ids[4][0] == 'c' && ids[5][0] == 'c' && "remove-kubeconfig"[0] == 'r';
  }

  lemma LateIdsAreNew(i: nat)
    requires i < 10
    ensures BuildPlan.LateIds()[i] != "destroy-kind" && BuildPlan.LateIds()[i] != "remove-kubeconfig"
  {
    assert BuildPlan.LateIds()[9][0] == 'f' && "destroy-kind"[0] == 'd';
  }

  /** No step of a plan shares its id with a step of the destroy phase. */
  lemma PlanIdsAreNew(drafts: seq<BuildPlan.Draft>)
    ensures AllNew(DoneSteps(DestroyOrder(false)), Ids(BuildPlan.Finish(drafts)))
  {
    forall i | 0 <= i < |drafts| ensures NewStep(DoneSteps(DestroyOrder(false)), Ids(BuildPlan.Finish(drafts))[i]) {
      IdsAreNew(drafts[i].name);
    }
  }

  /** The rows a recreation leaves. */
  ghost function RecreateRows(in_: BuildPlan.Inputs, r: Recreation): seq<StepUi>
    requires IsRecreation(in_, r)
  {
    DestroyRows(false, r.n) + if r.run.Some? then RowsOf(r.run.value.order, r.run.value.stop, r.run.value.cancelled) else []
  }

  /**
   * After any recreation its panel shows the steps of the destroy phase and below them those of the plan, in the
   * order they ran and without repeats: all done, but for at most one step that failed and ended it.
   */
  lemma RecreateLeavesTimeline(p: Panel, in_: BuildPlan.Inputs, r: Recreation)
    requires IsRecreation(in_, r) && p.steps == [] && |p.output| <= OP_OUTPUT_CAP
    ensures ApplyAll(p, Reported(r)).steps == RecreateRows(in_, r)
    ensures r.run.Some? && r.run.value.result.Success? ==>
      ApplyAll(p, Reported(r)).steps == DoneSteps(DestroyOrder(false)) + DoneSteps(r.run.value.order)
  {
    DestroyLeavesTimeline(p, false, r.world, r.n, r.destroyed, r.result);
    if r.run.None? {
      assert r.destroyed + [] == r.destroyed;
      assert DestroyRows(false, r.n) + [] == DestroyRows(false, r.n);
    } else {
      var q, x := ApplyAll(p, r.destroyed), r.run.value;
      ApplyConcat(p, r.destroyed, x.events);
      PlanIdsAreNew(r.drafts);
      ApplyAllFits(p, r.destroyed);
      RunLeavesTimeline(q, x);
    }
  }

  lemma DestroyText(p: Panel, world: World, n: nat, events: seq<Event>)
    requires IsDestroy(false, world, n, events, Success(())) && p.CreateStyle() && p.steps == [] && |p.output| <= OP_OUTPUT_CAP
    requires |Headed(p, true)| + |Transcript(DestroyOrder(false), (k: nat) => DestroyRun(world, k), 2)| <= OP_OUTPUT_CAP
    ensures ApplyAll(p, events) == Progress(p, DestroyOrder(false), (k: nat) => DestroyRun(world, k), 2)
  {
    DestroyIdsDiffer(false);
    BlocksTranscript(p, DestroyOrder(false), (k: nat) => DestroyRun(world, k), 2);
  }

  /** The whole text of a recreation that came to running its plan. */
  ghost function RecreateText(p: Panel, in_: BuildPlan.Inputs, r: Recreation): seq<Line>
    requires IsRecreation(in_, r) && r.run.Some?
  {
    WholeText(Progress(p, DestroyOrder(false), (k: nat) => DestroyRun(r.world, k), 2), r.run.value)
  }

  /** When that text fits, the panel shows exactly it. */
  lemma RecreateThatFitsShowsItsText(p: Panel, in_: BuildPlan.Inputs, r: Recreation)
    requires IsRecreation(in_, r) && r.run.Some? && p.CreateStyle() && p.steps == [] && |p.output| <= OP_OUTPUT_CAP
    requires |RecreateText(p, in_, r)| <= OP_OUTPUT_CAP
    ensures ApplyAll(p, Reported(r)).output == RecreateText(p, in_, r)
  {
    var x := r.run.value;
    var q := Progress(p, DestroyOrder(false), (k: nat) => DestroyRun(r.world, k), 2);
    DestroyText(p, r.world, r.n, r.destroyed);
    ApplyConcat(p, r.destroyed, x.events);
    PlanIdsAreNew(r.drafts);
    DestroyLeavesTimeline(p, false, r.world, r.n, r.destroyed, r.result);
    RunThatFitsShowsItsText(q, x);
  }

  /**
   * When no event of a successful recreation was lost, its open panel shows the steps of both phases in execution
   * order, all done, whatever other operations were issued and delivered in between.
   */
  lemma PanelShowsTheRecreation(actions: seq<Operations.Action>, name: string, in_: BuildPlan.Inputs, r: Recreation)
    requires Operations.Causal(actions) && Operations.IssueCount(actions, name) < Operations.GENERATIONS
    requires name in Operations.Run(actions).ops
    requires IsRecreation(in_, r) && r.run.Some? && r.run.value.result.Success?
    requires Operations.Own(actions, name, Operations.Run(actions).ops[name].gen)
      == Operations.AsProgress(Reported(r)) + [Operations.Finish(Success(()))]
    ensures var p := Operations.Run(actions).ops[name];
      && p.steps == DoneSteps(DestroyOrder(false)) + DoneSteps(Ids(BuildPlan.Finish(r.drafts)))
      && p.finished == Some(Success(()))
  {
    var p := Operations.Run(actions).ops[name];
    Operations.PanelAfterEvents(actions, name, Reported(r), Success(()));
    RecreateLeavesTimeline(Start(p.kind, p.gen), in_, r);
  }
}
