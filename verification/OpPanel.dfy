/** The output panel of one operation: a step timeline and a capped output tail, built from progress events. */
module OpPanel {
  import opened Common
  import opened Plan
  import opened RunPlan

  const OP_OUTPUT_CAP: nat := 400

  datatype Kind = Create | Recreate | Destroy

  datatype Status = Running | Done | Failed

  datatype StepUi = StepUi(id: StepId, status: Status)

  /** The output lines by what they say; labels of steps are derived from their ids. */
  datatype Line =
    | Header(kind: Kind)
    | Placeholder(id: StepId)          // "   <label> ..."
    | CheckMark(id: StepId)            // the step finished
    | CrossMark(id: StepId)            // the step failed
    | StartedLine(id: StepId)          // destroy panels announce each transition on a line of its own
    | FinishedLine(id: StepId)
    | FailedLine(id: StepId, error: string)
    | StreamLine(id: StepId, text: string)
    | ErrorLine(error: string)
    | ContextSet | UseCluster | Blank | ClusterInfo
    | PlanDone | PlanAborted

  datatype Panel = Panel(
    kind: Kind, gen: nat, steps: seq<StepUi>, output: seq<Line>,
    finished: Option<Result<(), string>>, headerPrinted: bool, pending: Option<nat>)
  {
    predicate CreateStyle() { !kind.Destroy? }
  }

  function Start(kind: Kind, gen: nat): Panel { Panel(kind, gen, [], [], None, false, None) }

  function Pushed(output: seq<Line>, line: Line): seq<Line> { LastN(OP_OUTPUT_CAP, output + [line]) }

  function PushedAll(output: seq<Line>, lines: seq<Line>): seq<Line>
    decreases |lines|
  {
    if lines == [] then output else PushedAll(Pushed(output, lines[0]), lines[1..])
  }

  /** The first step of that id gets the status; a new step goes to the end. */
  function SetStatus(steps: seq<StepUi>, id: StepId, status: Status): seq<StepUi> {
    if steps == [] then [StepUi(id, status)]
    else if steps[0].id == id then [StepUi(id, status)] + steps[1..]
    else [steps[0]] + SetStatus(steps[1..], id, status)
  }

  /** A finished or failed step rewrites its pending line, or pushes when there is none to rewrite. */
  function Settle(p: Panel, line: Line): Panel {
    if p.pending.Some? && p.pending.value < |p.output|
    then p.(output := p.output[p.pending.value := line], pending := None)
    else p.(output := Pushed(p.output, line), pending := None)
  }

  const READY: seq<Line> := [ContextSet, UseCluster, Blank, ClusterInfo]

  function WithHeader(p: Panel): Panel {
    if p.headerPrinted then p else p.(output := Pushed(p.output, Header(p.kind)), headerPrinted := true)
  }

  function Apply(p: Panel, e: Event): Panel {
    match e
    case StepStarted(id) =>
      var q := p.(steps := SetStatus(p.steps, id, Running));
      if p.CreateStyle() then
        var h := WithHeader(q);
        h.(output := Pushed(h.output, Placeholder(id)), pending := Some(|h.output|))
      else q.(output := Pushed(q.output, StartedLine(id)))
    case StepOutput(id, text) => p.(output := Pushed(p.output, StreamLine(id, text)))
    case StepFinished(id) =>
      var q := p.(steps := SetStatus(p.steps, id, Done));
      if p.CreateStyle() then Settle(q, CheckMark(id)) else q.(output := Pushed(q.output, FinishedLine(id)))
    case StepFailed(id, error) =>
      var q := p.(steps := SetStatus(p.steps, id, Failed));
      if p.CreateStyle() then
        var s := Settle(q, CrossMark(id));
        s.(output := Pushed(s.output, ErrorLine(error)))
      else q.(output := Pushed(q.output, FailedLine(id, error)))
    case PlanFinished(success) =>
      if p.CreateStyle() then
        p.(output := if success then PushedAll(p.output, READY) else Pushed(p.output, PlanAborted))
      else p.(output := Pushed(p.output, if success then PlanDone else PlanAborted))
  }

  function ApplyAll(p: Panel, events: seq<Event>): Panel {
    if events == [] then p else Apply(ApplyAll(p, events[..|events| - 1]), events[|events| - 1])
  }

  lemma {:induction false} ApplyConcat(p: Panel, a: seq<Event>, b: seq<Event>)
    ensures ApplyAll(p, a + b) == ApplyAll(ApplyAll(p, a), b)
  {
    if b == [] {
      assert a + b == a;
    } else {
      var front := b[..|b| - 1];
      assert (a + b)[..|a + b| - 1] == a + front;
      ApplyConcat(p, a, front);
    }
  }

  lemma ApplyOne(p: Panel, e: Event)
    ensures ApplyAll(p, [e]) == Apply(p, e)
  {
    assert [e][..0] == [];
    assert ApplyAll(p, []) == p;
  }

  lemma FirstApplied(p: Panel, e: Event, rest: seq<Event>)
    ensures ApplyAll(p, [e] + rest) == ApplyAll(Apply(p, e), rest)
  {
    ApplyConcat(p, [e], rest);
    ApplyOne(p, e);
  }

  /** No event makes the output longer than the cap. */
  lemma {:induction false} ApplyAllFits(p: Panel, events: seq<Event>)
    requires |p.output| <= OP_OUTPUT_CAP
    ensures |ApplyAll(p, events).output| <= OP_OUTPUT_CAP && ApplyAll(p, events).kind == p.kind
  {
    if events != [] {
      ApplyAllFits(p, events[..|events| - 1]);
      ApplyFits(ApplyAll(p, events[..|events| - 1]), events[|events| - 1]);
    }
  }

  lemma ApplyFits(p: Panel, e: Event)
    requires |p.output| <= OP_OUTPUT_CAP
    ensures |Apply(p, e).output| <= OP_OUTPUT_CAP && Apply(p, e).kind == p.kind
  {
    if e.PlanFinished? { PushedAllStays(p.output, READY); }
  }

  lemma {:induction false} PushedAllStays(output: seq<Line>, lines: seq<Line>)
    requires |output| <= OP_OUTPUT_CAP
    ensures |PushedAll(output, lines)| <= OP_OUTPUT_CAP
    decreases |lines|
  {
    if lines != [] { PushedAllStays(Pushed(output, lines[0]), lines[1..]); }
  }

  // ---- one step ----

  function Streamed(id: StepId, lines: seq<string>): (r: seq<Line>)
    ensures |r| == |lines|
  {
    if lines == [] then [] else [StreamLine(id, lines[0])] + Streamed(id, lines[1..])
  }

  lemma {:induction false} OutputsApplied(p: Panel, id: StepId, lines: seq<string>)
    requires |p.output| <= OP_OUTPUT_CAP
    ensures ApplyAll(p, Outputs(id, lines)) == p.(output := LastN(OP_OUTPUT_CAP, p.output + Streamed(id, lines)))
    decreases |lines|
  {
    if lines == [] {
      assert p.output + [] == p.output;
    } else {
      var first, rest := StepOutput(id, lines[0]), lines[1..];
      FirstApplied(p, first, Outputs(id, rest));
      OutputsApplied(Apply(p, first), id, rest);
      LastNStepwise(OP_OUTPUT_CAP, p.output, StreamLine(id, lines[0]), Streamed(id, rest));
    }
  }

  ghost predicate NewStep(steps: seq<StepUi>, id: StepId) { forall i :: 0 <= i < |steps| ==> steps[i].id != id }

  /** Setting a status changes the first row of that id, or adds one. */
  lemma {:induction false} SetFirst(steps: seq<StepUi>, id: StepId, status: Status, i: nat)
    requires i <= |steps| && (forall k :: 0 <= k < i ==> steps[k].id != id) && (i < |steps| ==> steps[i].id == id)
    ensures SetStatus(steps, id, status) == if i == |steps| then steps + [StepUi(id, status)] else steps[i := StepUi(id, status)]
  {
    if i > 0 { SetFirst(steps[1..], id, status, i - 1); }
  }

  lemma SetNew(steps: seq<StepUi>, id: StepId, status: Status)
    requires NewStep(steps, id)
    ensures SetStatus(steps, id, status) == steps + [StepUi(id, status)]
  {
    SetFirst(steps, id, status, |steps|);
  }

  /** A later status replaces an earlier one. */
  lemma {:induction false} SetTwice(steps: seq<StepUi>, id: StepId, was: Status, status: Status)
    ensures SetStatus(SetStatus(steps, id, was), id, status) == SetStatus(steps, id, status)
  {
    if steps != [] && steps[0].id != id {
      SetTwice(steps[1..], id, was, status);
      assert ([steps[0]] + SetStatus(steps[1..], id, was))[1..] == SetStatus(steps[1..], id, was);
    }
  }

  /** The panel after a step started and streamed. */
  function Underway(p: Panel, id: StepId, lines: seq<string>): Panel {
    ApplyAll(Apply(p, StepStarted(id)), Outputs(id, lines))
  }

  /** The output of a create panel after a step that ended with this mark, by how full the panel was. */
  function OutputAfterStep(before: seq<Line>, id: StepId, lines: seq<string>, mark: Line): seq<Line> {
    var written := before + [Placeholder(id)] + Streamed(id, lines);
    if |before| >= OP_OUTPUT_CAP then LastN(OP_OUTPUT_CAP, written + [mark])     // too late to find: appended
    else if |written| <= OP_OUTPUT_CAP then before + [mark] + Streamed(id, lines)  // rewritten in place
    else LastN(OP_OUTPUT_CAP, written)[|before| := mark]                           // another line is overwritten
  }

  lemma UnderwayOutput(p: Panel, id: StepId, lines: seq<string>)
    requires p.CreateStyle() && |p.output| <= OP_OUTPUT_CAP
    ensures var h := WithHeader(p);
      Underway(p, id, lines) == h.(
        steps := SetStatus(p.steps, id, Running), pending := Some(|h.output|),
        output := LastN(OP_OUTPUT_CAP, h.output + [Placeholder(id)] + Streamed(id, lines)))
  {
    var h := WithHeader(p);
    OutputsApplied(Apply(p, StepStarted(id)), id, lines);
    LastNAbsorbs(OP_OUTPUT_CAP, h.output + [Placeholder(id)], Streamed(id, lines));
  }

  lemma SettledOutput(before: seq<Line>, id: StepId, lines: seq<string>, mark: Line, p: Panel)
    requires |before| <= OP_OUTPUT_CAP && p.pending == Some(|before|)
    requires p.output == LastN(OP_OUTPUT_CAP, before + [Placeholder(id)] + Streamed(id, lines))
    ensures Settle(p, mark) == p.(output := OutputAfterStep(before, id, lines, mark), pending := None)
  {
    var written := before + [Placeholder(id)] + Streamed(id, lines);
    LastNAbsorbs(OP_OUTPUT_CAP, written, [mark]);
    if |written| <= OP_OUTPUT_CAP {
      assert written[|before| := mark] == before + [mark] + Streamed(id, lines);
    }
  }

  lemma BlockSplit(p: Panel, id: StepId, run: StepRun)
    ensures ApplyAll(p, Block(id, run)) == Apply(Underway(p, id, run.lines), StepFinished(id))
  {
    var outputs := Outputs(id, run.lines);
    ApplyConcat(p, [StepStarted(id)] + outputs, [StepFinished(id)]);
    FirstApplied(p, StepStarted(id), outputs);
    ApplyOne(Underway(p, id, run.lines), StepFinished(id));
  }

  /** A step that finishes on a create panel, whatever it streams and however full the panel is. */
  lemma FinishedStep(p: Panel, id: StepId, run: StepRun)
    requires p.CreateStyle() && |p.output| <= OP_OUTPUT_CAP
    ensures var h := WithHeader(p);
      ApplyAll(p, Block(id, run)) == h.(
        steps := SetStatus(p.steps, id, Done), pending := None,
        output := OutputAfterStep(h.output, id, run.lines, CheckMark(id)))
  {
    BlockSplit(p, id, run);
    UnderwayOutput(p, id, run.lines);
    SetTwice(p.steps, id, Running, Done);
    var u := Underway(p, id, run.lines);
    SettledOutput(WithHeader(p).output, id, run.lines, CheckMark(id), u.(steps := SetStatus(p.steps, id, Done)));
  }

  lemma InPlaceIff(before: seq<Line>, id: StepId, lines: seq<string>, mark: Line)
    requires |before| <= OP_OUTPUT_CAP
    ensures OutputAfterStep(before, id, lines, mark) == before + [mark] + Streamed(id, lines)
        <==> |before| + 1 + |lines| <= OP_OUTPUT_CAP
  {
  }

  /** On a create panel the step's placeholder is rewritten in place exactly when the panel did not overflow meanwhile. */
  lemma RewrittenInPlaceIff(p: Panel, id: StepId, run: StepRun)
    requires p.CreateStyle() && |p.output| <= OP_OUTPUT_CAP
    ensures var before := WithHeader(p).output;
      ApplyAll(p, Block(id, run)).output == before + [CheckMark(id)] + Streamed(id, run.lines)
      <==> |before| + 1 + |run.lines| <= OP_OUTPUT_CAP
  {
    FinishedStep(p, id, run);
    InPlaceIff(WithHeader(p).output, id, run.lines, CheckMark(id));
  }

  /** Otherwise, on a panel that was not full, the mark replaces a line the step itself streamed. */
  lemma OverflowOverwritesALine(p: Panel, id: StepId, run: StepRun)
    requires p.CreateStyle() && |p.output| <= OP_OUTPUT_CAP
    requires |WithHeader(p).output| < OP_OUTPUT_CAP < |WithHeader(p).output| + 1 + |run.lines|
    ensures var before := WithHeader(p).output;
      var k := |before| + |run.lines| - OP_OUTPUT_CAP;
      ApplyAll(p, Block(id, run)).output
      == LastN(OP_OUTPUT_CAP, before + [Placeholder(id)] + Streamed(id, run.lines)[k := CheckMark(id)])
  {
    var before := WithHeader(p).output;
    FinishedStep(p, id, run);
    OverwriteInTail(OP_OUTPUT_CAP, before + [Placeholder(id)], Streamed(id, run.lines),
                    |before| + |run.lines| - OP_OUTPUT_CAP, CheckMark(id));
  }

  /** On a full panel the mark is appended and the placeholder stays, or scrolls away. */
  lemma FullPanelAppends(p: Panel, id: StepId, run: StepRun)
    requires p.CreateStyle() && |p.output| == OP_OUTPUT_CAP
    ensures ApplyAll(p, Block(id, run)).output
      == LastN(OP_OUTPUT_CAP, WithHeader(p).output + [Placeholder(id)] + Streamed(id, run.lines) + [CheckMark(id)])
  {
    FinishedStep(p, id, run);
  }

  lemma OverwriteInTail<T>(n: nat, a: seq<T>, b: seq<T>, k: nat, x: T)
    requires k < |b| && n <= |a| + |b| && |a| + |b| - n <= |a| + k
    ensures LastN(n, a + b)[n - |b| + k := x] == LastN(n, a + b[k := x])
  {
    UpdateInRight(a, b, k, x);
    UpdateInTail(a + b, |a| + |b| - n, n - |b| + k, x);
  }

  lemma UpdateInRight<T>(a: seq<T>, b: seq<T>, k: nat, x: T)
    requires k < |b|
    ensures (a + b)[|a| + k := x] == a + b[k := x]
  {
  }

  lemma UpdateInTail<T>(s: seq<T>, cut: nat, i: nat, x: T)
    requires cut + i < |s|
    ensures s[cut..][i := x] == s[cut + i := x][cut..]
  {
  }

  // ---- whole runs ----

  function DoneSteps(ids: seq<StepId>): (r: seq<StepUi>)
    ensures |r| == |ids| && forall i :: 0 <= i < |ids| ==> r[i] == StepUi(ids[i], Done)
  {
    seq(|ids|, i requires 0 <= i < |ids| => StepUi(ids[i], Done))
  }

  /** None of the ids has a row yet. */
  ghost predicate AllNew(steps: seq<StepUi>, ids: seq<StepId>) { forall i :: 0 <= i < |ids| ==> NewStep(steps, ids[i]) }

  lemma UnderwayTimeline(p: Panel, id: StepId, run: StepRun)
    requires |p.output| <= OP_OUTPUT_CAP
    ensures var q := Underway(p, id, run.lines);
      q.steps == SetStatus(p.steps, id, Running) && |q.output| <= OP_OUTPUT_CAP && q.kind == p.kind
  {
    OutputsApplied(Apply(p, StepStarted(id)), id, run.lines);
  }

  lemma BlockTimeline(p: Panel, id: StepId, run: StepRun)
    requires |p.output| <= OP_OUTPUT_CAP && NewStep(p.steps, id)
    ensures var q := ApplyAll(p, Block(id, run));
      q.steps == p.steps + [StepUi(id, Done)] && |q.output| <= OP_OUTPUT_CAP && q.kind == p.kind
  {
    BlockSplit(p, id, run);
    UnderwayTimeline(p, id, run);
    FinishTimeline(Underway(p, id, run.lines), id);
    SetTwice(p.steps, id, Running, Done);
    SetNew(p.steps, id, Done);
  }

  lemma FinishTimeline(u: Panel, id: StepId)
    requires |u.output| <= OP_OUTPUT_CAP
    ensures var q := Apply(u, StepFinished(id));
      q.steps == SetStatus(u.steps, id, Done) && |q.output| <= OP_OUTPUT_CAP && q.kind == u.kind
  {
  }

  lemma DoneStepsNext(rows: seq<StepUi>, order: seq<StepId>, n: nat)
    requires n < |order|
    ensures rows + DoneSteps(order[..n + 1]) == rows + DoneSteps(order[..n]) + [StepUi(order[n], Done)]
  {
  }

  lemma DoneStepsAreNot(rows: seq<StepUi>, order: seq<StepId>, n: nat)
    requires n < |order| && NoDup(order) && AllNew(rows, order)
    ensures NewStep(rows + DoneSteps(order[..n]), order[n])
  {
  }

  /** After `n` finished steps that are new to the panel: their rows, all done, below the rows it had. */
  ghost predicate TimelineAfter(p: Panel, order: seq<StepId>, n: nat, q: Panel)
    requires n <= |order|
  {
    q.steps == p.steps + DoneSteps(order[..n]) && |q.output| <= OP_OUTPUT_CAP && q.kind == p.kind
  }

  lemma BlocksTimeline(p: Panel, order: seq<StepId>, runs: nat -> StepRun, n: nat)
    requires n <= |order| && NoDup(order) && AllNew(p.steps, order) && |p.output| <= OP_OUTPUT_CAP
    ensures TimelineAfter(p, order, n, ApplyAll(p, Blocks(order, runs, n)))
  {
    var holds := (k: nat) => k <= |order| ==> TimelineAfter(p, order, k, ApplyAll(p, Blocks(order, runs, k)));
    assert p.steps + DoneSteps(order[..0]) == p.steps;
    assert Blocks(order, runs, 0) == [];
    forall k: nat | holds(k) ensures holds(k + 1) {
      if k < |order| {
        ApplyConcat(p, Blocks(order, runs, k), Block(order[k], runs(k)));
        NextTimeline(p, order, k, ApplyAll(p, Blocks(order, runs, k)), runs(k));
      }
    }
    Climb(holds, n);
    assert holds(n);
  }

  lemma NextTimeline(p: Panel, order: seq<StepId>, n: nat, q: Panel, run: StepRun)
    requires n < |order| && NoDup(order) && AllNew(p.steps, order) && TimelineAfter(p, order, n, q)
    ensures TimelineAfter(p, order, n + 1, ApplyAll(q, Block(order[n], run)))
  {
    DoneStepsAreNot(p.steps, order, n);
    BlockTimeline(q, order[n], run);
    DoneStepsNext(p.steps, order, n);
  }

  lemma AbortTimeline(p: Panel, steps: seq<ProvisionStep>, id: StepId, cancelled: bool, run: StepRun, tail: seq<Event>, error: RunError)
    requires id in Ids(steps) && Aborts(steps, id, cancelled, run, tail, error)
    requires |p.output| <= OP_OUTPUT_CAP && NewStep(p.steps, id)
    ensures ApplyAll(p, tail).steps == p.steps + if cancelled then [] else [StepUi(id, Failed)]
  {
    if cancelled {
      ApplyOne(p, PlanFinished(false));
    } else {
      var message := Message(FindStep(steps, id).value, run.failure.value);
      FailureSplit(p, id, run, message);
      FailureTimeline(p, id, run, message);
    }
  }

  lemma FailureSplit(p: Panel, id: StepId, run: StepRun, message: string)
    ensures ApplyAll(p, [StepStarted(id)] + Outputs(id, run.lines) + [StepFailed(id, message), PlanFinished(false)])
         == Apply(Apply(Underway(p, id, run.lines), StepFailed(id, message)), PlanFinished(false))
  {
    ApplyConcat(p, [StepStarted(id)] + Outputs(id, run.lines), [StepFailed(id, message), PlanFinished(false)]);
    FirstApplied(p, StepStarted(id), Outputs(id, run.lines));
    TwoApplied(Underway(p, id, run.lines), StepFailed(id, message), PlanFinished(false));
  }

  lemma FailureTimeline(p: Panel, id: StepId, run: StepRun, message: string)
    requires |p.output| <= OP_OUTPUT_CAP && NewStep(p.steps, id)
    ensures Apply(Apply(Underway(p, id, run.lines), StepFailed(id, message)), PlanFinished(false)).steps == p.steps + [StepUi(id, Failed)]
  {
    UnderwayTimeline(p, id, run);
    SetTwice(p.steps, id, Running, Failed);
    SetNew(p.steps, id, Failed);
  }

  lemma TwoApplied(p: Panel, a: Event, b: Event)
    ensures ApplyAll(p, [a, b]) == Apply(Apply(p, a), b)
  {
    assert [a, b] == [a] + [b];
    FirstApplied(p, a, [b]);
    ApplyOne(Apply(p, a), b);
  }

  /** The events of a run: its finished blocks, then the rest. */
  lemma RunSplit(p: Panel, x: Execution) returns (q: Panel, tail: seq<Event>)
    requires IsExecution(x)
    ensures q == ApplyAll(p, Blocks(x.order, x.runs, x.stop)) && ApplyAll(p, x.events) == ApplyAll(q, tail)
    ensures Ends(x, tail)
  {
    var blocks := Completed(x);
    q, tail := ApplyAll(p, blocks), x.events[|blocks|..];
    assert x.events == blocks + tail;
    ApplyConcat(p, blocks, tail);
  }

  /** What a run adds to the timeline: the finished steps, all done, and at most the one step that failed. */
  function RowsOf(order: seq<StepId>, stop: nat, cancelled: nat -> bool): seq<StepUi>
    requires stop <= |order|
  {
    DoneSteps(order[..stop]) + if stop < |order| && !cancelled(stop) then [StepUi(order[stop], Failed)] else []
  }

  /**
   * After any run of the plan, on a panel that may already show other steps: below the rows it had, the timeline
   * holds the finished steps in execution order without repeats, all done, and after them at most the one step
   * that failed.
   */
  lemma RunLeavesTimeline(p: Panel, x: Execution)
    requires IsExecution(x) && Ordered(x) && AllNew(p.steps, x.order) && |p.output| <= OP_OUTPUT_CAP
    ensures ApplyAll(p, x.events).steps == p.steps + RowsOf(x.order, x.stop, x.cancelled)
    ensures x.result.Success? ==> ApplyAll(p, x.events).steps == p.steps + DoneSteps(x.order)
  {
    OrderHasNoDup(x.steps, x.order);
    BlocksTimeline(p, x.order, x.runs, x.stop);
    var q, tail := RunSplit(p, x);
    TailTimeline(p, x, q, tail);
  }

  lemma TailTimeline(p: Panel, x: Execution, q: Panel, tail: seq<Event>)
    requires IsExecution(x) && NoDup(x.order) && AllNew(p.steps, x.order) && TimelineAfter(p, x.order, x.stop, q)
    requires Ends(x, tail)
    ensures ApplyAll(q, tail).steps == p.steps + RowsOf(x.order, x.stop, x.cancelled)
    ensures x.result.Success? ==> ApplyAll(q, tail).steps == p.steps + DoneSteps(x.order)
  {
    if x.stop == |x.order| {
      ApplyOne(q, PlanFinished(true));
      assert x.order[..x.stop] == x.order;
      assert DoneSteps(x.order) + [] == DoneSteps(x.order);
    } else {
      DoneStepsAreNot(p.steps, x.order, x.stop);
      AbortTimeline(q, x.steps, x.order[x.stop], x.cancelled(x.stop), x.runs(x.stop), tail, x.result.error);
      JoinRows(p.steps, DoneSteps(x.order[..x.stop]), if x.cancelled(x.stop) then [] else [StepUi(x.order[x.stop], Failed)]);
    }
  }

  lemma JoinRows(a: seq<StepUi>, b: seq<StepUi>, c: seq<StepUi>)
    ensures a + b + c == a + (b + c)
  {
  }

  // ---- the text of a run that fits ----

  /** One check mark a finished step, each followed by what the step streamed; no placeholder is left. */
  function Transcript(order: seq<StepId>, runs: nat -> StepRun, n: nat): seq<Line>
    requires n <= |order|
  {
    if n == 0 then []
    else Transcript(order, runs, n - 1) + ([CheckMark(order[n - 1])] + Streamed(order[n - 1], runs(n - 1).lines))
  }

  /** The panel's output with its heading, which is printed before the first step. */
  function Headed(p: Panel, started: bool): seq<Line> {
    if started && !p.headerPrinted then p.output + [Header(p.kind)] else p.output
  }

  /** The panel `p` after `n` more steps that all finished. */
  function Progress(p: Panel, order: seq<StepId>, runs: nat -> StepRun, n: nat): Panel
    requires n <= |order|
  {
    if n == 0 then p
    else p.(steps := p.steps + DoneSteps(order[..n]), output := Headed(p, true) + Transcript(order, runs, n),
            headerPrinted := true, pending := None)
  }

  lemma HeaderedOutput(p: Panel, order: seq<StepId>, runs: nat -> StepRun, n: nat)
    requires p.CreateStyle() && n <= |order| && |Headed(p, true)| + |Transcript(order, runs, n)| <= OP_OUTPUT_CAP
    ensures var h := WithHeader(Progress(p, order, runs, n));
      h.output == Headed(p, true) + Transcript(order, runs, n) && h.headerPrinted && h.kind == p.kind
    ensures |Progress(p, order, runs, n).output| <= OP_OUTPUT_CAP
  {
    if n == 0 { assert Headed(p, true) + [] == Headed(p, true); }
  }

  lemma TranscriptStep(p: Panel, order: seq<StepId>, runs: nat -> StepRun, n: nat)
    requires n < |order| && NoDup(order) && AllNew(p.steps, order) && p.CreateStyle()
    requires |Headed(p, true)| + |Transcript(order, runs, n + 1)| <= OP_OUTPUT_CAP
    ensures ApplyAll(Progress(p, order, runs, n), Block(order[n], runs(n))) == Progress(p, order, runs, n + 1)
  {
    var id, run, q := order[n], runs(n), Progress(p, order, runs, n);
    HeaderedOutput(p, order, runs, n);
    FinishedStep(q, id, run);
    InPlaceIff(WithHeader(q).output, id, run.lines, CheckMark(id));
    ProgressRow(p, order, runs, n);
    Regroup(Headed(p, true), Transcript(order, runs, n), [CheckMark(id)], Streamed(id, run.lines));
  }

  /** The row a finished step adds. */
  lemma ProgressRow(p: Panel, order: seq<StepId>, runs: nat -> StepRun, n: nat)
    requires n < |order| && NoDup(order) && AllNew(p.steps, order)
    ensures SetStatus(Progress(p, order, runs, n).steps, order[n], Done) == p.steps + DoneSteps(order[..n + 1])
  {
    DoneStepsAreNot(p.steps, order, n);
    assert p.steps + DoneSteps(order[..0]) == p.steps;
    SetNew(Progress(p, order, runs, n).steps, order[n], Done);
    DoneStepsNext(p.steps, order, n);
  }

  lemma Regroup<T>(a: seq<T>, b: seq<T>, c: seq<T>, d: seq<T>)
    ensures a + b + c + d == a + (b + (c + d))
  {
  }

  lemma {:induction false} TranscriptGrows(order: seq<StepId>, runs: nat -> StepRun, k: nat, n: nat)
    requires k <= n <= |order|
    ensures |Transcript(order, runs, k)| <= |Transcript(order, runs, n)|
    decreases n
  {
    if k < n { TranscriptGrows(order, runs, k, n - 1); }
  }

  lemma NextTranscript(p: Panel, order: seq<StepId>, runs: nat -> StepRun, n: nat)
    requires n < |order| && NoDup(order) && AllNew(p.steps, order) && p.CreateStyle()
    requires |Headed(p, true)| + |Transcript(order, runs, n + 1)| <= OP_OUTPUT_CAP
    requires ApplyAll(p, Blocks(order, runs, n)) == Progress(p, order, runs, n)
    ensures ApplyAll(p, Blocks(order, runs, n + 1)) == Progress(p, order, runs, n + 1)
  {
    ApplyConcat(p, Blocks(order, runs, n), Block(order[n], runs(n)));
    TranscriptStep(p, order, runs, n);
  }

  lemma BlocksTranscript(p: Panel, order: seq<StepId>, runs: nat -> StepRun, n: nat)
    requires n <= |order| && NoDup(order) && AllNew(p.steps, order) && p.CreateStyle() && |p.output| <= OP_OUTPUT_CAP
    requires n > 0 ==> |Headed(p, true)| + |Transcript(order, runs, n)| <= OP_OUTPUT_CAP
    ensures ApplyAll(p, Blocks(order, runs, n)) == Progress(p, order, runs, n)
  {
    var holds := (k: nat) => k <= n ==> ApplyAll(p, Blocks(order, runs, k)) == Progress(p, order, runs, k);
    assert Blocks(order, runs, 0) == [];
    forall k: nat | holds(k) ensures holds(k + 1) {
      if k < n {
        TranscriptGrows(order, runs, k + 1, n);
        NextTranscript(p, order, runs, k);
      }
    }
    Climb(holds, n);
    assert holds(n);
  }

  ghost predicate StartedAny(x: Execution)
    requires x.stop <= |x.order|
  {
    x.stop > 0 || (x.stop < |x.order| && !x.cancelled(x.stop))
  }

  /** The last lines of a run. */
  ghost function Ending(x: Execution): seq<Line>
    requires IsExecution(x)
  {
    if x.stop == |x.order| then READY
    else if x.cancelled(x.stop) then [PlanAborted]
    else
      var id, run := x.order[x.stop], x.runs(x.stop);
      [CrossMark(id)] + Streamed(id, run.lines) + [ErrorLine(Message(FindStep(x.steps, id).value, run.failure.value)), PlanAborted]
  }

  /** The panel's output followed by the whole text of a run. */
  ghost function WholeText(p: Panel, x: Execution): seq<Line>
    requires IsExecution(x)
  {
    Headed(p, StartedAny(x)) + Transcript(x.order, x.runs, x.stop) + Ending(x)
  }

  lemma FailureText(q: Panel, id: StepId, run: StepRun, message: string)
    requires q.CreateStyle() && |q.output| <= OP_OUTPUT_CAP && |WithHeader(q).output| + 3 + |run.lines| <= OP_OUTPUT_CAP
    ensures Apply(Apply(Underway(q, id, run.lines), StepFailed(id, message)), PlanFinished(false)).output
         == WithHeader(q).output + ([CrossMark(id)] + Streamed(id, run.lines) + [ErrorLine(message), PlanAborted])
  {
    var h := WithHeader(q).output;
    FailureMark(q, id, run, message);
    TwoPushed(h + [CrossMark(id)] + Streamed(id, run.lines), ErrorLine(message), PlanAborted);
    Regroup(h, [CrossMark(id)], Streamed(id, run.lines), [ErrorLine(message), PlanAborted]);
    ConcatAssociates([CrossMark(id)], Streamed(id, run.lines), [ErrorLine(message), PlanAborted]);
  }

  lemma FailureMark(q: Panel, id: StepId, run: StepRun, message: string)
    requires q.CreateStyle() && |q.output| <= OP_OUTPUT_CAP && |WithHeader(q).output| + 3 + |run.lines| <= OP_OUTPUT_CAP
    ensures var failed := Apply(Underway(q, id, run.lines), StepFailed(id, message));
      failed.output == Pushed(WithHeader(q).output + [CrossMark(id)] + Streamed(id, run.lines), ErrorLine(message))
      && failed.CreateStyle()
  {
    UnderwayOutput(q, id, run.lines);
    var u := Underway(q, id, run.lines);
    SettledOutput(WithHeader(q).output, id, run.lines, CrossMark(id), u.(steps := SetStatus(u.steps, id, Failed)));
    InPlaceIff(WithHeader(q).output, id, run.lines, CrossMark(id));
  }

  lemma TwoPushed(output: seq<Line>, a: Line, b: Line)
    requires |output| + 2 <= OP_OUTPUT_CAP
    ensures Pushed(Pushed(output, a), b) == output + [a, b]
  {
  }

  lemma {:induction false} PushedAllFits(output: seq<Line>, lines: seq<Line>)
    requires |output| + |lines| <= OP_OUTPUT_CAP
    ensures PushedAll(output, lines) == output + lines
    decreases |lines|
  {
    if lines != [] {
      PushedAllFits(Pushed(output, lines[0]), lines[1..]);
      assert output + [lines[0]] + lines[1..] == output + lines;
    } else {
      assert output + lines == output;
    }
  }

  lemma AbortText(q: Panel, x: Execution, tail: seq<Event>)
    requires IsExecution(x) && x.stop < |x.order| && x.result.Failure?
    requires Aborts(x.steps, x.order[x.stop], x.cancelled(x.stop), x.runs(x.stop), tail, x.result.error)
    requires q.CreateStyle() && |q.output| <= OP_OUTPUT_CAP
    requires var h := if x.cancelled(x.stop) then q.output else WithHeader(q).output; |h| + |Ending(x)| <= OP_OUTPUT_CAP
    ensures ApplyAll(q, tail).output == (if x.cancelled(x.stop) then q.output else WithHeader(q).output) + Ending(x)
  {
    var id, run := x.order[x.stop], x.runs(x.stop);
    if x.cancelled(x.stop) {
      ApplyOne(q, PlanFinished(false));
    } else {
      var message := Message(FindStep(x.steps, id).value, run.failure.value);
      FailureSplit(q, id, run, message);
      FailureText(q, id, run, message);
    }
  }

  /** What the output is once the finished steps are through. */
  lemma ProgressText(p: Panel, x: Execution)
    requires IsExecution(x) && p.CreateStyle() && |p.output| <= OP_OUTPUT_CAP && |WholeText(p, x)| <= OP_OUTPUT_CAP
    ensures var q := Progress(p, x.order, x.runs, x.stop);
      && |q.output| <= OP_OUTPUT_CAP && q.kind == p.kind
      && (if StartedAny(x) && x.stop < |x.order| && !x.cancelled(x.stop) then WithHeader(q).output else q.output)
         == Headed(p, StartedAny(x)) + Transcript(x.order, x.runs, x.stop)
  {
    if StartedAny(x) {
      HeaderedOutput(p, x.order, x.runs, x.stop);
    } else {
      assert p.output + [] == p.output;
    }
  }

  /**
   * When the text of a run fits below what the panel shows already, the panel shows exactly that: every finished
   * step's placeholder has been rewritten in place by its check mark, and a failed step's by its cross.
   */
  lemma RunThatFitsShowsItsText(p: Panel, x: Execution)
    requires IsExecution(x) && Ordered(x) && AllNew(p.steps, x.order) && p.CreateStyle()
    requires |p.output| <= OP_OUTPUT_CAP && |WholeText(p, x)| <= OP_OUTPUT_CAP
    ensures ApplyAll(p, x.events).output == WholeText(p, x)
  {
    OrderHasNoDup(x.steps, x.order);
    WholeTextFits(p, x);
    BlocksTranscript(p, x.order, x.runs, x.stop);
    var q, tail := RunSplit(p, x);
    TailText(p, x, tail);
  }

  lemma WholeTextFits(p: Panel, x: Execution)
    requires IsExecution(x) && |WholeText(p, x)| <= OP_OUTPUT_CAP
    ensures x.stop > 0 ==> |Headed(p, true)| + |Transcript(x.order, x.runs, x.stop)| <= OP_OUTPUT_CAP
  {
  }

  lemma TailText(p: Panel, x: Execution, tail: seq<Event>)
    requires IsExecution(x) && Ends(x, tail) && p.CreateStyle()
    requires |p.output| <= OP_OUTPUT_CAP && |WholeText(p, x)| <= OP_OUTPUT_CAP
    ensures ApplyAll(Progress(p, x.order, x.runs, x.stop), tail).output == WholeText(p, x)
  {
    ProgressText(p, x);
    var q := Progress(p, x.order, x.runs, x.stop);
    if x.stop == |x.order| {
      ApplyOne(q, PlanFinished(true));
      PushedAllFits(q.output, READY);
    } else {
      AbortText(q, x, tail);
    }
  }

  // ---- the panel object ----

  class OpPanel {
    const kind: Kind
    const gen: nat
    var steps: seq<StepUi>
    var output: seq<Line>
    var finished: Option<Result<(), string>>
    var headerPrinted: bool
    var pending: Option<nat>

    function State(): Panel
      reads this
    {
      Panel(kind, gen, steps, output, finished, headerPrinted, pending)
    }

    ghost predicate Valid()
      reads this
    {
      |output| <= OP_OUTPUT_CAP
    }

    constructor (kind: Kind, gen: nat)
      ensures Valid() && State() == Start(kind, gen)
    {
      this.kind, this.gen := kind, gen;
      steps, output, finished, headerPrinted, pending := [], [], None, false, None;
    }

    method PushLine(line: Line)
      requires Valid()
      modifies this`output
      ensures Valid() && output == Pushed(old(output), line)
    {
      if |output| >= OP_OUTPUT_CAP { output := output[1..]; }
      output := output + [line];
    }

    method PushLines(lines: seq<Line>)
      requires Valid()
      modifies this`output
      ensures Valid() && output == PushedAll(old(output), lines)
    {
      for i := 0 to |lines|
        invariant Valid() && PushedAll(output, lines[i..]) == PushedAll(old(output), lines)
      {
        assert lines[i..][0] == lines[i] && lines[i..][1..] == lines[i + 1..];
        PushLine(lines[i]);
      }
    }

    /** Find the step's row, adding it at the end when it is new, and set its status. */
    method SetStep(id: StepId, status: Status)
      modifies this`steps
      ensures steps == SetStatus(old(steps), id, status)
    {
      var i := 0;
      while i < |steps| && steps[i].id != id
        invariant 0 <= i <= |steps| && steps == old(steps)
        invariant forall k :: 0 <= k < i ==> steps[k].id != id
      {
        i := i + 1;
      }
      SetFirst(steps, id, status, i);
      if i == |steps| {
        steps := steps + [StepUi(id, status)];
      } else {
        steps := steps[i := StepUi(id, status)];
      }
    }

    /** Rewrite the pending line when its index is still inside the buffer, else push. */
    method SettleLine(line: Line)
      requires Valid()
      modifies this`output, this`pending
      ensures Valid() && State() == Settle(old(State()), line)
    {
      var index := pending;
      pending := None;
      if index.Some? && index.value < |output| {
        output := output[index.value := line];
      } else {
        PushLine(line);
      }
    }

    method BeginStep(id: StepId)
      requires Valid()
      modifies this
      ensures Valid() && State() == Apply(old(State()), StepStarted(id))
    {
      SetStep(id, Running);
      if kind.Destroy? {
        PushLine(StartedLine(id));
      } else {
        if !headerPrinted {
          PushLine(Header(kind));
          headerPrinted := true;
        }
        var index := |output|;
        PushLine(Placeholder(id));
        pending := Some(index);
      }
    }

    method EndPlan(success: bool)
      requires Valid()
      modifies this
      ensures Valid() && State() == Apply(old(State()), PlanFinished(success))
    {
      if kind.Destroy? {
        PushLine(if success then PlanDone else PlanAborted);
      } else if success {
        PushLines(READY);
      } else {
        PushLine(PlanAborted);
      }
    }

    method ApplyEvent(e: Event)
      requires Valid()
      modifies this
      ensures Valid() && State() == Apply(old(State()), e)
    {
      match e {
        case StepStarted(id) => BeginStep(id);
        case StepOutput(id, text) => PushLine(StreamLine(id, text));
        case StepFinished(id) =>
          SetStep(id, Done);
          if kind.Destroy? { PushLine(FinishedLine(id)); } else { SettleLine(CheckMark(id)); }
        case StepFailed(id, error) =>
          SetStep(id, Failed);
          if kind.Destroy? {
            PushLine(FailedLine(id, error));
          } else {
            SettleLine(CrossMark(id));
            PushLine(ErrorLine(error));
          }
        case PlanFinished(success) => EndPlan(success);
      }
    }
  }
}
