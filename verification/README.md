# Kindboard orchestration, verified

A Dafny 4.11 model of Kindboard's orchestration core and proofs about it. `dafny verify dfyconfig.toml` checks the
whole project. There is one module a file.

| modules | part of Kindboard |
|---|---|
| `Plan`, `TopologicalSort`, `SortLoop`, `SortCounts`, `SortTies`, `RunPlan`, `BuildPlan` | the provisioning plan: its data, the degree-counter sort, when its loop ends, what it makes of repeated ids, what it does with ties, the runner and its events, the builder |
| `LineSplitter`, `StderrTail`, `Redaction`, `Supervisor`, `SupervisorRuns` | subprocess streams and the TERM, grace, KILL ladder |
| `AtomicFile`, `BackupHistory`, `AtomicWrite` | crash-safe file replacement: the directory machine, writers that take turns, and one writer's code |
| `Kubeconfig` | the upsert algebra of the kubeconfig store |
| `LogRing`, `WorkerSlots`, `Operations`, `OpPanel`, `Recreate`, `Quoting` | bounded log buffers, cancellation tokens, generation-tagged panels, recreating a cluster, terminal quoting |
| `Version`, `Install`, `Layout` | version parsing, install plans and their digest gate, the layered layout |
| `Common`, `Text`, `Decimal`, `Sorting` | shared vocabulary: options and results, splitting, numerals, stable sorting |

Code that changes things step by step is modelled by methods and classes, each proved against a function or
predicate on values; the properties are then proved of those functions. Protocols with several parties (the
supervisor, concurrent file writers, the two log rings, the issue and delivery of operations) are state machines
over their steps, and their theorems quantify over every schedule.

What lies outside enters as a parameter: outcomes of subprocesses and of file system calls, cancellation times,
digests, the detection of tools, the URL parser, the verdict of spec validation, the clock.

## Assumptions

- In `AtomicFile` a directory survives a crash as some earlier state of itself: directory operations reach the disk
  in order, but how many of them is arbitrary, because the code syncs files and not directories. A synced file
  keeps its contents; any other file may hold anything.
- In `Supervisor` reaping and setting the shared flag are one step, and so are checking the flag and sending the
  signal it guards.
- `TopologicalSort.Sort` and `RunPlan.Run` ask only that the loop ends, because no value comes from a loop that does
  not. Plans without a cycle end (`SortLoop.AcyclicEnds`), and so do plans in which no id that starts out ready is
  repeated (`TopologicalSort.RootsOnceEnds`); `SortLoop.LoopEndsIff` says exactly which plans do in
  terms of the run, and `SortCounts.LoopEndsIffSettles` in terms of the plan.
- Where a theorem about a run asks for `Ordered`, the plan has distinct ids; the builder produces no others
  (`BuildPlan.LinkedIsChain`).
- `Operations` counts on events carrying generations that were issued before they are delivered.

## Where the code and its documentation differ

- The sort promises insertion order for ties, but the ready list is popped from the back:
  `SortTies.LastRootGoesFirst` says which step leads, and `SortTies.InsertionOrderForTies` that of two steps ready at
  the same turn the one listed first goes first exactly for the plans that have a single topological order, where
  nothing ever ties; two independent steps already run in the opposite order (`SortTies.TwoRootsSwap`). Built plans
  have a single order (`BuildPlan.ChainKeepsInsertionOrder`).
- The sort takes it for granted that ids are distinct. With a repeated id it may report a cycle where there is none
  (`TopologicalSort.KahnOrders`), never end (`SortLoop.ClashingPlanLoopsForever`), or succeed wrongly: with one step run
  twice and another once too few (`SortCounts.SuccessMayMiscount`), or with a step before the one it needs
  (`SortCounts.SuccessMayRunTooEarly`). `SortCounts.ListsThePlanIff` says exactly when a success lists the plan.
- `run_plan` sends no `PlanFinished`, and no event at all, for a plan that does not sort (`RunPlan.Run`).
- The comment at the worker's shutdown says that every running operation is cancelled; dropping the map of tokens
  cancels none. All tokens are cancelled exactly when every started operation had been replaced or stopped before
  (`WorkerSlots.Worker.RunLoop`, `WorkerSlots.NoneLiveIff`); creating a cluster and shutting down leaves its token
  uncancelled (`WorkerSlots.CreateOutlivesShutdown`). The aborted tasks drop their process handles instead, which
  `Supervisor.DroppedUnreapedIsKilled` covers.
- A fired token must be reported as a cancellation even when the child exited with 0. That is decided when the exit is
  reaped, before the pipes are read to their end: `Supervisor.CancelledIffFiredBeforeDecision` is what holds, and
  `Supervisor.LateTokenStillSucceeds` a run whose token fires in between.
- An operation panel rewrites the placeholder of a step by its index. `OpPanel.RewrittenInPlaceIff` gives the exact
  condition; when the 400-line buffer overflows meanwhile, `OpPanel.OverflowOverwritesALine` says which line is
  replaced instead, and on a full panel the mark is appended (`OpPanel.FullPanelAppends`).
- The template documentation promises `arm64` in download URLs on arm hosts. The placeholder is rendered from the
  download word, which is compared with `aarch64` and never equals it, so on an `aarch64` host every template that
  names the architecture downloads the `amd64` artifact, which is then checked against the digest of `arm64`:
  `Install.UrlIsAsPromisedIff`, `Install.Aarch64PlanChecksTheOtherArtifact`.
- Removing a context can leave another context's cluster or user reference dangling;
  `Kubeconfig.RemoveKeepsRefsIff` gives the exact condition.

## Model

| member | source | states |
|---|---|---|
| TopologicalSort.Sort | crates/kindboard-core/src/provision/mod.rs:1040-1088 | whenever the loop ends: succeeds exactly when all dependencies are known and as many ids were popped as there are steps; otherwise the error names an unknown dependency or the cycle. Unless a root is repeated, that is exactly when the ids are distinct and there is no cycle, and the result is a permutation of the ids with every dependency first |
| TopologicalSort.KahnDecides | crates/kindboard-core/src/provision/mod.rs:1067-1087 | unless a root is repeated, the loop ends, pops no id twice, and pops every id exactly when the plan has no cycle |
| TopologicalSort.KahnOrders | crates/kindboard-core/src/provision/mod.rs:1082-1087 | unless a root is repeated, the order is complete exactly when the ids are distinct and there is no cycle, and then it is topological |
| TopologicalSort.RootsOnceEnds | crates/kindboard-core/src/provision/mod.rs:1068-1080 | unless a root is repeated the loop ends |
| SortLoop.LoopEndsIff | crates/kindboard-core/src/provision/mod.rs:1068-1080 | for every plan, whatever ids repeat: the loop runs for ever exactly when the popped ids contain a dependency cycle |
| SortLoop.AcyclicEnds | crates/kindboard-core/src/provision/mod.rs:1068-1080 | a plan without a cycle empties the stack, whatever ids repeat |
| SortLoop.AcyclicIff | crates/kindboard-core/src/provision/mod.rs:1068-1087 | a plan with known dependencies has no cycle exactly when the loop ends and has popped every id |
| SortCounts.LoopEndsIffSettles | crates/kindboard-core/src/provision/mod.rs:1061-1080 | for every plan: the loop ends exactly when some count gives each id its starts as a root and the decrements by that count that leave its counter at zero; what the loop pops is the least such count |
| SortCounts.SolutionIsPopped | crates/kindboard-core/src/provision/mod.rs:1061-1087 | without a cycle any such count is what the loop pops, and the length test passes exactly when it has as many pops as the plan has steps |
| SortCounts.ListsThePlanIff | crates/kindboard-core/src/provision/mod.rs:1061-1087 | with known dependencies the sort succeeds and returns each id as often as it is listed exactly when there is no cycle and each id with dependencies is listed once, and once more for every listing of a dependency beyond the first |
| SortCounts.SuccessMayMiscount | crates/kindboard-core/src/provision/mod.rs:1082-1087 | a plan with a repeated root whose success runs one step twice and another once too few |
| SortCounts.SuccessMayRunTooEarly | crates/kindboard-core/src/provision/mod.rs:1068-1087 | a plan with a repeated root whose success lists the plan but runs a step before one it needs |
| SortLoop.RepeatedRootLoopsForever | crates/kindboard-core/src/provision/mod.rs:1061-1080 | a root repeated as often as a self-dependent step has dependencies keeps the loop going for ever |
| SortLoop.PopsBalanced | crates/kindboard-core/src/provision/mod.rs:1070-1078 | whatever ids repeat, an id was pushed as often as it starts out ready and its counter was left at zero |
| TopologicalSort.CountEdges | crates/kindboard-core/src/provision/mod.rs:1044-1060 | the counting loops accept exactly the plans whose dependencies are known, and give each step its in-degree and each id its dependents; else the error names the first step with an unknown dependency, and the first such dependency |
| TopologicalSort.CountStep | crates/kindboard-core/src/provision/mod.rs:1049-1059 | the entries of one step are refused at the first unknown dependency, else all recorded, repeated entries included |
| TopologicalSort.ZeroCounters | crates/kindboard-core/src/provision/mod.rs:1044-1047 | every id of the plan, and nothing else, starts with a zero counter |
| TopologicalSort.CollectReady | crates/kindboard-core/src/provision/mod.rs:1061-1066 | the start stack holds the steps without dependencies in plan order |
| TopologicalSort.Release | crates/kindboard-core/src/provision/mod.rs:1070-1078 | decrements each dependent once per entry, not below zero, and pushes it whenever its counter is zero then |
| TopologicalSort.RelaxDegrees | crates/kindboard-core/src/provision/mod.rs:1072-1074 | each counter falls by exactly the number of entries |
| TopologicalSort.RelaxFrees | crates/kindboard-core/src/provision/mod.rs:1075-1077 | exactly the steps whose counter reaches zero are pushed, each once |
| TopologicalSort.PopNeverSaturates | crates/kindboard-core/src/provision/mod.rs:1074 | the saturating subtraction never saturates in a state reached without a repeated root |
| TopologicalSort.DependentsMirrorDependencies | crates/kindboard-core/src/provision/mod.rs:1057-1058 | a step occurs among the dependents of an id as often as the id among its dependencies |
| TopologicalSort.PopInv | crates/kindboard-core/src/provision/mod.rs:1068-1080 | every turn keeps: counters are the unsorted dependency entries, zero counters are exactly the sorted and ready ids, no id twice |
| TopologicalSort.StackEmpties | crates/kindboard-core/src/provision/mod.rs:1068 | sorted and ready ids together never exceed the ids, so the loop ends |
| TopologicalSort.FullOrderIsTopological | crates/kindboard-core/src/provision/mod.rs:1082-1087 | an order of full length puts every dependency before its dependents |
| TopologicalSort.OrderExcludesCycles | crates/kindboard-core/src/provision/mod.rs:1082-1087 | a plan that has such an order has no cycle |
| TopologicalSort.EarlyStopHasCycle | crates/kindboard-core/src/provision/mod.rs:1082-1086 | a loop that stops early has met a real cycle |
| TopologicalSort.RepeatedStepIsCycle | crates/kindboard-core/src/provision/mod.rs:1082-1086 | a dependency path that meets a step twice contains a cycle |
| SortTies.LastRootGoesFirst | crates/kindboard-core/src/provision/mod.rs:1068 | the first step executed is the last listed one without dependencies |
| SortTies.InsertionOrderForTies | crates/kindboard-core/src/provision/mod.rs:1038-1080 | for every plan with distinct ids, known dependencies and no cycle: ties keep insertion order exactly when there is one topological order, which is when every step needs the one sorted right before it, and when the ready stack never holds two ids |
| SortTies.TwoRootsSwap | crates/kindboard-core/src/provision/mod.rs:1068 | any two independent steps run in the opposite of their listed order |
| SortLoop.ClashingPlanLoopsForever | crates/kindboard-core/src/provision/mod.rs:1044-1080 | a plan with a repeated id on which the loop never ends |
| RunPlan.Run | crates/kindboard-core/src/provision/mod.rs:661-735 | whenever the sort ends, and for every pattern of outcomes and cancellations, the reported events are one execution, in dependency order when the ids are distinct; a plan that does not sort reports nothing |
| RunPlan.RunSorted | crates/kindboard-core/src/provision/mod.rs:668-734 | the loop over the sorted ids gives an execution: full blocks of events up to the first step that fails or is cancelled, then the abort |
| RunPlan.RunOne | crates/kindboard-core/src/provision/mod.rs:669-729 | one turn: goes on exactly when the token is quiet and the step succeeds |
| RunPlan.StreamStep | crates/kindboard-core/src/provision/mod.rs:1023-1035 | a step is announced and its lines are forwarded in order, each one scrubbed |
| RunPlan.OutputIsScrubbed | crates/kindboard-core/src/provision/mod.rs:1023-1035 | in every run each line of output is the scrubbed form of a line its step printed |
| RunPlan.NothingStartsAfterFailure | crates/kindboard-core/src/provision/mod.rs:668-728 | nothing starts after a failure, whatever ids repeat |
| RunPlan.SuccessMeansAllFinished | crates/kindboard-core/src/provision/mod.rs:730-734 | with distinct ids a run succeeds exactly when every step finished |
| RunPlan.RunSucceedsIff | crates/kindboard-core/src/provision/mod.rs:668-734 | a run succeeds exactly when no check saw a cancellation and no step failed |
| RunPlan.FailureIsReported | crates/kindboard-core/src/provision/mod.rs:684-728 | a failed run returns the first failing step's own error; its event carries that error, and a diagnosis below it exactly for a Cilium install that failed uncancelled |
| RunPlan.CancellationIsReported | crates/kindboard-core/src/provision/mod.rs:670-681 | a cancelled run reports the finished steps and nothing of the one before which it stopped |
| RunPlan.StartsAfterDependencies | crates/kindboard-core/src/provision/mod.rs:668-702 | a step starts only after each of its dependencies has finished |
| RunPlan.NothingStartsTooLate | crates/kindboard-core/src/provision/mod.rs:668-728 | with distinct ids nothing starts at or after an observed cancellation, and no step starts twice |
| RunPlan.PlanFinishedOnceAndLast | crates/kindboard-core/src/provision/mod.rs:674-734 | `PlanFinished` is sent once, last, with success exactly when every step finished |
| RunPlan.EventAt | crates/kindboard-core/src/provision/mod.rs:661-735 | where each kind of event can sit in a run |
| RunPlan.FindStep | crates/kindboard-core/src/provision/mod.rs:669 | the step of an id is found exactly when the plan has it |
| BuildPlan.Build | crates/kindboard-core/src/provision/mod.rs:270-628 | a valid spec gives a plan whose steps follow the spec, each linked to the one before and doing its own job; an invalid one gives the validation error |
| BuildPlan.BuildAll | crates/kindboard-core/src/provision/mod.rs:289-627 | the named steps, in order, for every CNI, ingress and Cilium choice |
| BuildPlan.BuildBase | crates/kindboard-core/src/provision/mod.rs:289-325 | the three base steps |
| BuildPlan.BuildFlannel | crates/kindboard-core/src/provision/mod.rs:329-375 | the flannel steps |
| BuildPlan.BuildFlannelManifest | crates/kindboard-core/src/provision/mod.rs:330-360 | the manifest is downloaded, and patched exactly when the pod network is not flannel's own |
| BuildPlan.BuildCalico | crates/kindboard-core/src/provision/mod.rs:376-438 | the calico steps, with the CRD wait between operator and resource |
| BuildPlan.BuildCilium | crates/kindboard-core/src/provision/mod.rs:439-536 | the cilium steps |
| BuildPlan.CiliumSets | crates/kindboard-core/src/provision/mod.rs:440-460 | the helm values of the install match the options |
| BuildPlan.BuildGatewayCrds | crates/kindboard-core/src/provision/mod.rs:461-487 | the Gateway API CRDs come before the install |
| BuildPlan.BuildIngress | crates/kindboard-core/src/provision/mod.rs:537-607 | the ingress steps follow all CNI steps |
| BuildPlan.StepList.Step | crates/kindboard-core/src/provision/mod.rs:641-656 | appends any step and returns its id |
| BuildPlan.StepList.Link | crates/kindboard-core/src/provision/mod.rs:641-656 | appends a step that follows the last one; the list stays a chain |
| BuildPlan.LinkedIsChain | crates/kindboard-core/src/provision/mod.rs:289-628 | every built plan has distinct ids and each step depends on exactly the step before it |
| BuildPlan.StepsComeInRankOrder | crates/kindboard-core/src/provision/mod.rs:289-628 | the Gateway CRD apply precedes the Cilium install, CNI steps precede ingress steps, the final gate is last |
| BuildPlan.StepsAreCalledFor | crates/kindboard-core/src/provision/mod.rs:289-627 | for each step the exact condition on the spec under which the plan has it |
| BuildPlan.FilesAreWrittenBeforeUse | crates/kindboard-core/src/provision/mod.rs:285-600 | a file that a step of a built plan reads was written by the step right before it |
| BuildPlan.CiliumValuesFollowTheSpec | crates/kindboard-core/src/provision/mod.rs:440-460 | each helm value of the Cilium install is there exactly when the spec's options ask for it; without options it is ingress alone |
| BuildPlan.CiliumInstallIsDiagnosed | crates/kindboard-core/src/provision/mod.rs:700-712 | the Cilium install, and no other step of a built plan, is the step whose failure is diagnosed |
| BuildPlan.ContextIsTheStores | crates/kindboard-core/src/provision/mod.rs:286-288 | a plan talks to the context that the kubeconfig store keeps for the cluster |
| BuildPlan.ChainHasOneOrder | crates/kindboard-core/src/provision/mod.rs:1040-1088 | a chain has exactly one topological order, its build order |
| BuildPlan.ChainKeepsInsertionOrder | crates/kindboard-core/src/provision/mod.rs:1038-1080 | built plans have one topological order, so their sort keeps insertion order for ties |
| BuildPlan.BuildAndSort | crates/kindboard-core/src/provision/mod.rs:270-667 | building and then sorting always succeeds and returns the build order unchanged |
| LineSplitter.ForwardLines | crates/kindboard-core/src/exec.rs:283-312 | for every way of cutting the stream into chunks, the lines sent are those of splitting the whole stream, up to a receiver that goes away |
| LineSplitter.DrainLines | crates/kindboard-core/src/exec.rs:294-305 | sends every complete line of the carry and keeps the rest |
| LineSplitter.SplitUndoesJoin | crates/kindboard-core/src/exec.rs:294-311 | lines ended by LF or CR LF, and an unterminated tail, split back into their texts |
| LineSplitter.LineCount | crates/kindboard-core/src/exec.rs:283-312 | one line for each newline and one for a non-empty unterminated tail |
| LineSplitter.LinesHoldNoNewline | crates/kindboard-core/src/exec.rs:294-301 | no line sent contains a newline |
| StderrTail.AppendAll | crates/kindboard-core/src/exec.rs:339-354 | after any chunks the tail is the longest fitting suffix of the whole text |
| StderrTail.SharedTail.Append | crates/kindboard-core/src/exec.rs:339-354 | one append keeps the tail fitting; a poisoned lock drops the chunk |
| StderrTail.Trim | crates/kindboard-core/src/exec.rs:344-352 | trims to the longest suffix that fits and starts on a character boundary |
| StderrTail.BoundaryFrom | crates/kindboard-core/src/exec.rs:346-350 | the first character boundary at or after the offset |
| StderrTail.FittingTailIsLongest | crates/kindboard-core/src/exec.rs:339-354 | every suffix that starts earlier is too long |
| StderrTail.TailOfTail | crates/kindboard-core/src/exec.rs:343-352 | trimming before or after more text arrives makes no difference |
| StderrTail.FullTailLength | crates/kindboard-core/src/exec.rs:344-352 | once the text is longer than 2048 bytes the tail has between 2045 and 2048 bytes |
| StderrTail.Utf8LenIsLeast | crates/kindboard-core/src/exec.rs:344-352 | a character counts as many bytes as UTF-8 needs for it, and no more |
| Redaction.RedactKubeconfigSecrets | crates/kindboard-core/src/exec.rs:651-686 | the result is the line with the one applicable key's value replaced, or the line itself |
| Redaction.RedactWith | crates/kindboard-core/src/exec.rs:651-686 | the same for any table of keys |
| Redaction.OneKeyApplies | crates/kindboard-core/src/exec.rs:653-668 | at most one key can apply to a line |
| Redaction.RedactionIsUnique | crates/kindboard-core/src/exec.rs:651-686 | a line has one scrubbed form |
| Redaction.RedactionIsIdempotent | crates/kindboard-core/src/exec.rs:651-686 | scrubbing a scrubbed line changes nothing |
| Redaction.ValueDoesNotShow | crates/kindboard-core/src/exec.rs:670-683 | any two values give the same output |
| Redaction.FieldIsFound | crates/kindboard-core/src/exec.rs:652-671 | the parse of a secret line is the only one |
| Redaction.TailForError | crates/kindboard-core/src/exec.rs:611-625 | the error tail is cut to size and scrubbed line by line; the number of lines is kept |
| Quoting.ReadUndoesEscape | crates/kindboard-app/src/worker.rs:467-469 | the AppleScript literal ends at its own closing quote and reads back as the text, whatever follows |
| Quoting.ReadQuoted | crates/kindboard-app/src/worker.rs:461-463 | a quoted string contributes exactly its own text to a shell word |
| Quoting.ShellReadsThreeWords | crates/kindboard-app/src/worker.rs:479-483 | the shell reads exactly `bin`, `--context`, `context` |
| Quoting.TerminalRunsTheCommand | crates/kindboard-app/src/worker.rs:478-491 | un-escaping the literal of the script and then reading it as a shell gives the three words |
| Quoting.ScriptHoldsTwoLiterals | crates/kindboard-app/src/worker.rs:487 | the script line holds the application name and the command as its only literals |
| Quoting.ScriptsAreDistinct | crates/kindboard-app/src/worker.rs:478-491 | different requests give different argument vectors |
| Quoting.EscapeOrderMatters | crates/kindboard-app/src/worker.rs:468 | escaping quotes before backslashes would not read back |
| Supervisor.CancelledNeverSucceeds | crates/kindboard-core/src/exec.rs:399-480 | in every interleaving an exit is handed over only if it was decided before any token fired, and no ladder or guard signalled up to the hand-over |
| Supervisor.CancelledIffFiredBeforeDecision | crates/kindboard-core/src/exec.rs:466-480 | between an exit and a cancellation, the result is the cancellation exactly when the token fired before the decision |
| Supervisor.LateTokenStillSucceeds | crates/kindboard-core/src/exec.rs:413-430 | a run whose token fires while the pipes are read to their end, reported as a success |
| Supervisor.ResultWasDecided | crates/kindboard-core/src/exec.rs:413-455 | every result was decided once, and is handed over as decided, after both pipes were closed |
| Supervisor.CancelledMeansFired | crates/kindboard-core/src/exec.rs:475-505 | cancellation is reported only after the token fired |
| Supervisor.KillWaitsForGrace | crates/kindboard-core/src/exec.rs:219-240 | a ladder's KILL comes at least the grace period after its first TERM |
| Supervisor.NothingSentAfterReaping | crates/kindboard-core/src/exec.rs:218-238 | nothing is signalled after reaping or after the drop, and a child is reaped once |
| Supervisor.DroppedUnreapedIsKilled | crates/kindboard-core/src/exec.rs:534-548 | a handle dropped unreaped is killed by the guard in that step |
| Supervisor.TimeoutNotBeforeItsTime | crates/kindboard-core/src/exec.rs:457-495 | a timeout is reported only once the timeout has passed |
| Supervisor.ReturnedAfterReaping | crates/kindboard-core/src/exec.rs:463-531 | a result is reported only after reaping |
| Supervisor.StepKeepsInv | crates/kindboard-core/src/exec.rs:219-548 | every step of watcher, waiter, guard and clock keeps the protocol invariant |
| Supervisor.RunKeepsInv | crates/kindboard-core/src/exec.rs:219-548 | every schedule keeps it |
| SupervisorRuns.ExitIsTheChilds | crates/kindboard-core/src/exec.rs:466-483 | in every interleaving an exit that is decided or handed over carries the code the child died with |
| SupervisorRuns.SuccessMeansExitZero | crates/kindboard-core/src/exec.rs:422-455 | `wait` succeeds only if the child exited with 0 and no token had fired when that was decided |
| SupervisorRuns.ErrorsTellTheRun | crates/kindboard-core/src/exec.rs:422-455 | what each error of `wait` says of the run: the timeout has passed, the token fired, or the child died with that other code than 0 |
| SupervisorRuns.NoTokenNoCancellation | crates/kindboard-core/src/exec.rs:475-505 | a run without a token is never cancelled, and a token fires at most once |
| SupervisorRuns.ExitIsDecided | crates/kindboard-core/src/exec.rs:466-480 | a dead child is reaped at the next poll, and its own code or the cancellation decided |
| SupervisorRuns.DecisionIsHandedOver | crates/kindboard-core/src/exec.rs:413-455 | a decision is handed over once the pipes are closed, and not before |
| SupervisorRuns.WaitBegins | crates/kindboard-core/src/exec.rs:457-459 | the timeout counts from the start of the wait |
| SupervisorRuns.TimeoutStrikes | crates/kindboard-core/src/exec.rs:495-500 | a child that has not exited by the deadline is terminated at the deadline |
| SupervisorRuns.TokenStrikes | crates/kindboard-core/src/exec.rs:501-505 | a fired token that the waiting task sees has the child terminated at once |
| SupervisorRuns.KillAfterGrace | crates/kindboard-core/src/exec.rs:519-531 | a child that ignores TERM is killed as soon as five seconds of grace are over |
| SupervisorRuns.DeathEndsLadder | crates/kindboard-core/src/exec.rs:519-531 | when the child is dead the ladder's outcome is decided, with or without a KILL |
| SupervisorRuns.WatcherTerms | crates/kindboard-core/src/exec.rs:219-229 | the watcher terminates the group as soon as the token fires |
| SupervisorRuns.WatcherKills | crates/kindboard-core/src/exec.rs:230-237 | the watcher kills the group as soon as the grace period is over |
| SupervisorRuns.PollingGoesOn | crates/kindboard-core/src/exec.rs:484-507 | while nothing has happened the wait goes on polling |
| SupervisorRuns.FailedPollEnds | crates/kindboard-core/src/exec.rs:485-491 | a poll that fails counts as already reaped |
| SupervisorRuns.OwnerMayTerminate | crates/kindboard-core/src/exec.rs:376-384 | a caller that has not begun to wait may terminate the group itself |
| SupervisorRuns.DropKillsAndReaps | crates/kindboard-core/src/exec.rs:534-548 | a dropped handle kills an unreaped child at once, and the runtime reaps it |
| AtomicFile.TargetAndBackupAlwaysWhole | crates/kindboard-core/src/fsutil.rs:29-78 | for any writers and crashes, target and backup hold whole, durable contents in every directory a crash may bring back, and never disappear |
| AtomicFile.OtherFilesUntouched | crates/kindboard-core/src/fsutil.rs:61-78 | files at other names, temporary names included, are untouched |
| BackupHistory.NewTargetMeansOldBackup | crates/kindboard-core/src/fsutil.rs:35-54 | with one writer over an existing file, a changed target means the backup holds the old bytes |
| BackupHistory.FirstWriterLeavesBackup | crates/kindboard-core/src/fsutil.rs:35-54 | with one writer and no file at the start the backup stays what it was |
| BackupHistory.BackupTrailsTarget | crates/kindboard-core/src/fsutil.rs:35-54 | for writers that take turns, in every directory a crash may bring back: the target is the last of its versions, which are the file at the start, if there was one, and then the bytes of writers in the order they started; the backup is untouched or holds the last version or the one before |
| AtomicFile.TempNameIsNeither | crates/kindboard-core/src/fsutil.rs:152-163 | a temporary name is neither the target nor its backup |
| AtomicFile.TempNamesDiffer | crates/kindboard-core/src/fsutil.rs:150-164 | different processes and different counter values give different temporary names |
| AtomicFile.StepKeepsInv | crates/kindboard-core/src/fsutil.rs:29-139 | every step of every writer, and a crash, keeps the invariant |
| AtomicFile.RunKeepsInv | crates/kindboard-core/src/fsutil.rs:29-139 | every schedule keeps it |
| AtomicFile.RenamedDirOk | crates/kindboard-core/src/fsutil.rs:48-49 | what is renamed into place is the whole of what was to be written |
| BackupHistory.StepKeepsTurns | crates/kindboard-core/src/fsutil.rs:35-54 | every step of writers that take turns, and a crash, keeps the histories of all directories |
| AtomicWrite.Process.AtomicWrite | crates/kindboard-core/src/fsutil.rs:29-55 | on success the target holds the bytes the caller gave, the backup the old ones, nothing else changed, no temporary file is left, and no call failed; on failure the target is what it was, and some call failed or sixteen names in a row were taken |
| AtomicWrite.Process.CreateNewTemp | crates/kindboard-core/src/fsutil.rs:61-78 | takes the first free of sixteen consecutive names, or gives up after all were taken or a call failed |
| AtomicWrite.Process.TryName | crates/kindboard-core/src/fsutil.rs:63-71 | a name in use is never opened; the counter advances |
| AtomicWrite.Process.TryNext | crates/kindboard-core/src/fsutil.rs:62-80 | one round: the call fails, or the next name is tried |
| AtomicWrite.Process.WriteAllAndSync | crates/kindboard-core/src/fsutil.rs:41-46 | all bytes are written before the sync; done exactly when no call failed |
| AtomicWrite.Process.RenameIntoPlace | crates/kindboard-core/src/fsutil.rs:48-54 | renames exactly when the call works; else reports the failure and removes the temporary file if that call works |
| AtomicWrite.Process.PutFile | crates/kindboard-core/src/fsutil.rs:38-54 | temporary file, bytes, sync, rename; done only if no call failed, and not done only if one did or sixteen names were taken |
| AtomicWrite.Process.BackUp | crates/kindboard-core/src/fsutil.rs:118-139 | the backup is written through the same steps, and fails for the same reasons only |
| AtomicWrite.SoloIsExact | crates/kindboard-core/src/fsutil.rs:29-139 | the exact directory after every step of an undisturbed writer |
| Kubeconfig.UpsertAssociative | crates/kindboard-core/src/kubeconfig.rs:254-274 | upserting is associative entry by entry |
| Kubeconfig.UpsertAbsorbs | crates/kindboard-core/src/kubeconfig.rs:254-274 | a later upsert of the same names absorbs an earlier one |
| Kubeconfig.UpsertKeepsOthers | crates/kindboard-core/src/kubeconfig.rs:261-273 | entries that are not replaced keep their order |
| Kubeconfig.UpsertIsMapUpdate | crates/kindboard-core/src/kubeconfig.rs:250-274 | an upsert is a map update in which incoming entries win |
| Kubeconfig.MergeAssociative | crates/kindboard-core/src/kubeconfig.rs:254-274 | merging whole configurations is associative |
| Kubeconfig.EnsureAbsorbs | crates/kindboard-core/src/kubeconfig.rs:112-180 | ensuring twice is ensuring once with the later data |
| Kubeconfig.ClustersAreIndependent | crates/kindboard-core/src/kubeconfig.rs:108-186 | ensuring a cluster gives it its cluster, user and context; ensuring or removing it leaves every other cluster's entries |
| Kubeconfig.KindNamesDiffer | crates/kindboard-core/src/kubeconfig.rs:108-112 | different clusters have different entries |
| Kubeconfig.RemoveTakesAll | crates/kindboard-core/src/kubeconfig.rs:280-293 | after removing a cluster nothing of it is left, and it is not current |
| Kubeconfig.RemoveUndoesEnsure | crates/kindboard-core/src/kubeconfig.rs:276-293 | removing after ensuring restores the lists and clears the current context |
| Kubeconfig.RunKeepsUnique | crates/kindboard-core/src/kubeconfig.rs:121-293 | names stay unique over every run |
| Kubeconfig.RunRefinesMap | crates/kindboard-core/src/kubeconfig.rs:121-293 | over every run the store means what the same run on maps gives |
| Kubeconfig.RunKeepsCurrent | crates/kindboard-core/src/kubeconfig.rs:178-293 | a current context that named an existing context never comes to dangle |
| Kubeconfig.RunKeepsOthers | crates/kindboard-core/src/kubeconfig.rs:186-293 | entries a run does not name keep contents and order |
| Kubeconfig.RemoveKeepsRefsIff | crates/kindboard-core/src/kubeconfig.rs:280-293 | removal leaves a dangling reference exactly when another context refers to the removed name |
| Kubeconfig.KindOutputKeepsRefsIff | crates/kindboard-core/src/kubeconfig.rs:197-248 | an import keeps references good exactly when the imported context's own lead to entries that were there or come with it |
| Kubeconfig.EnsureKeepsRefs | crates/kindboard-core/src/kubeconfig.rs:143-178 | ensuring keeps references good |
| Kubeconfig.Store.Merge | crates/kindboard-core/src/kubeconfig.rs:254-274 | the three lists are upserted, the current context stays |
| Kubeconfig.Store.EnsureContext | crates/kindboard-core/src/kubeconfig.rs:121-180 | only https servers are accepted; a refusal changes nothing |
| Kubeconfig.Store.EnsureContextFromKindOutput | crates/kindboard-core/src/kubeconfig.rs:189-248 | imports the named or the first entries; an unreadable document changes nothing |
| Kubeconfig.Store.RemoveContext | crates/kindboard-core/src/kubeconfig.rs:280-293 | removes the triple, clears the current context when it was that one, and says whether anything was removed |
| Kubeconfig.Store.VerifyContext | crates/kindboard-core/src/kubeconfig.rs:104-106 | whether a context of that name exists |
| Kubeconfig.Retain | crates/kindboard-core/src/kubeconfig.rs:261-269 | keeps the entries whose names are not in the set |
| Kubeconfig.CollectNames | crates/kindboard-core/src/kubeconfig.rs:256-260 | the set of names of a list |
| Kubeconfig.Preferred | crates/kindboard-core/src/kubeconfig.rs:197-203 | the wanted entry, else the first; none only from an empty list |
| LogRing.LogRing.Push | crates/kindboard-core/src/k8s/logs.rs:47-52 | after a push the ring holds the last lines of what it held and the new one |
| LogRing.LogRing.Extend | crates/kindboard-core/src/k8s/logs.rs:55-63 | pushing several lines keeps the last of all |
| LogRing.LogRing.Drain | crates/kindboard-app/src/worker.rs:1081-1088 | takes everything out |
| LogRing.LogRing.constructor | crates/kindboard-core/src/k8s/logs.rs:24-29 | the capacity is at least one |
| LogRing.DisplayShowsLastLines | crates/kindboard-app/src/worker.rs:1069-1102 | over a lossless bus, whenever everything drained is delivered the display holds the last lines of the whole stream as of the last drain, whatever was produced since |
| LogRing.CatchUp | crates/kindboard-app/src/app.rs:421-427 | after a drain, enough deliveries bring the display up to that drain, whatever arrives meanwhile |
| LogRing.RunShowsDrained | crates/kindboard-app/src/worker.rs:1069-1102 | at every moment the display and the queue, cut to capacity, are the last lines as of the last drain |
| LogRing.RunIsOneRing | crates/kindboard-app/src/worker.rs:1069-1102 | in every interleaving both rings and the queue, cut to capacity, are the last lines of the stream |
| LogRing.RunAccountsForAll | crates/kindboard-core/src/k8s/logs.rs:47-52 | emitted and shown lines come in order without repeats; every line is emitted, buffered or evicted exactly once |
| LogRing.CountsAddUp | crates/kindboard-core/src/k8s/logs.rs:47-52 | emitted + buffered + evicted = produced |
| WorkerSlots.LiveExactly | crates/kindboard-app/src/worker.rs:157-321 | a slot's live token is the one its last start made, unless it was stopped since |
| WorkerSlots.TokenFate | crates/kindboard-app/src/worker.rs:157-321 | the token a command made is live at the end exactly when no later command restarted, cancelled or stopped what it started |
| WorkerSlots.KeysAreDistinct | crates/kindboard-app/src/worker.rs:220-311 | different slots have different keys, whatever the names |
| WorkerSlots.CancelClearsExactlyItsSlots | crates/kindboard-app/src/worker.rs:244-254 | cancelling a cluster's operation clears its three slots and no other |
| WorkerSlots.DoAt | crates/kindboard-app/src/worker.rs:220-311 | a command changes only the slots it starts or stops |
| WorkerSlots.Worker.OpToken | crates/kindboard-app/src/worker.rs:337-343 | the new token is in the map and live, the replaced one cancelled |
| WorkerSlots.Worker.Stop | crates/kindboard-app/src/worker.rs:250-252 | the slot's token is cancelled and taken out |
| WorkerSlots.Worker.Handle | crates/kindboard-app/src/worker.rs:220-311 | each command keeps: of all tokens made exactly those in the map are live |
| WorkerSlots.Worker.RunLoop | crates/kindboard-app/src/worker.rs:157-333 | the whole loop up to the shutdown, which cancels nothing: all tokens made are cancelled exactly when every started operation was replaced or stopped before |
| WorkerSlots.NoneLiveIff | crates/kindboard-app/src/worker.rs:157-333 | no token is live exactly when every started operation was replaced or stopped since |
| WorkerSlots.CreateOutlivesShutdown | crates/kindboard-app/src/worker.rs:312-333 | creating a cluster and shutting down leaves the token uncancelled |
| OpPanel.RunLeavesTimeline | crates/kindboard-app/src/views/ops.rs:111-189 | after any plan run, on a panel that may show other steps already, the timeline holds below those the finished steps in execution order without repeats, all done, then at most the failed one |
| OpPanel.RunThatFitsShowsItsText | crates/kindboard-app/src/views/ops.rs:104-215 | when the text of a run fits 400 lines below what is shown already, the panel shows exactly that, every placeholder rewritten in place |
| OpPanel.FinishedStep | crates/kindboard-app/src/views/ops.rs:130-170 | the exact panel after a step, whatever it streams and however full the panel is |
| OpPanel.RewrittenInPlaceIff | crates/kindboard-app/src/views/ops.rs:143-170 | on a panel with a placeholder, after a whole step the placeholder is rewritten in place exactly when the panel did not overflow meanwhile |
| OpPanel.OverflowOverwritesALine | crates/kindboard-app/src/views/ops.rs:104-170 | otherwise, on a panel that was not full, the mark replaces a line the step streamed |
| OpPanel.FullPanelAppends | crates/kindboard-app/src/views/ops.rs:156-168 | on a full panel the mark is appended and the placeholder stays or scrolls away |
| OpPanel.SetFirst | crates/kindboard-app/src/views/ops.rs:111-124 | the first row of an id changes, or a row is added at the end |
| OpPanel.OpPanel.PushLine | crates/kindboard-app/src/views/ops.rs:104-109 | the last 400 lines are kept |
| OpPanel.OpPanel.SetStep | crates/kindboard-app/src/views/ops.rs:111-124 | finds or adds the row and sets its status |
| OpPanel.OpPanel.SettleLine | crates/kindboard-app/src/views/ops.rs:156-168 | rewrites the pending line if its index is inside the buffer, else pushes |
| OpPanel.OpPanel.BeginStep | crates/kindboard-app/src/views/ops.rs:130-149 | a started step |
| OpPanel.OpPanel.EndPlan | crates/kindboard-app/src/views/ops.rs:190-213 | a finished plan |
| OpPanel.OpPanel.ApplyEvent | crates/kindboard-app/src/views/ops.rs:128-215 | each event has its specified effect on the panel |
| Operations.PanelFoldsItsOwnEvents | crates/kindboard-app/src/app.rs:314-334 | over any interleaving an open panel belongs to the latest operation on its name and is the fold of exactly that operation's delivered events |
| Operations.NeverReissued | crates/kindboard-app/src/app.rs:207-211 | below 2^64 issues no generation is given out twice for a name |
| Operations.ReissuedIff | crates/kindboard-app/src/app.rs:207-211 | two issues share a generation exactly when a multiple of 2^64 issues lies between them |
| Operations.PanelShowsThePlanRun | crates/kindboard-app/src/app.rs:314-334 | if no event of an operation that ran a plan successfully, after whatever came earlier, was lost, its panel shows below the earlier rows the steps in execution order, all done |
| Operations.PanelAfterEvents | crates/kindboard-app/src/app.rs:314-334 | if no event of an operation was lost, its panel is what those events make of a fresh one |
| Recreate.DestroyPhase | crates/kindboard-app/src/worker.rs:802-914 | deletes, removes the kubeconfig entries and, unless recreating, the record; stops at the first failure, with each step reported in a full block |
| Recreate.DestroyStep | crates/kindboard-app/src/worker.rs:812-912 | one step of the phase and its report |
| Recreate.DestroySucceedsIff | crates/kindboard-app/src/worker.rs:802-914 | the phase succeeds exactly when the deletion worked or the cluster is verifiably gone and the entries, and the record if it is to go, were removed; which error a failure carries |
| Recreate.FailedDeletionTouchesNothing | crates/kindboard-app/src/worker.rs:829-864 | after a deletion that failed or was cancelled that step is reported as failed, and no other step runs |
| Recreate.DestroyGoesOn | crates/kindboard-app/src/worker.rs:848-912 | otherwise the exact events of the two or three steps, up to the first that failed |
| Recreate.DestroyLeavesTimeline | crates/kindboard-app/src/worker.rs:802-914 | after any destroy phase a fresh panel shows its steps in order, all done but for the one that failed |
| Recreate.DoRecreate | crates/kindboard-app/src/worker.rs:925-951 | destroys without removing the record, builds and runs the plan with exactly the given outcomes, saves; reports the first error on the way, and success exactly when there was none |
| Recreate.RecreateSucceedsIff | crates/kindboard-app/src/worker.rs:925-951 | a recreation succeeds exactly when the cluster is gone, its entries were removed, the spec is valid, no step was cancelled or failed, and the record was saved |
| Recreate.RecreateReportsTheFirstError | crates/kindboard-app/src/worker.rs:925-951 | the first thing that went wrong is what is reported |
| Recreate.CreatePhase | crates/kindboard-app/src/worker.rs:740-778 | a valid spec is built and run, with exactly the given cancellations and outcomes; an invalid one reports its error and no event |
| Recreate.RunBuilt | crates/kindboard-app/src/worker.rs:774-777 | a built plan always sorts, in its own order, and runs |
| Recreate.PlanIdsAreNew | crates/kindboard-app/src/worker.rs:802-914 | no step of a plan shares its id with a step of the destroy phase |
| Recreate.RecreateLeavesTimeline | crates/kindboard-app/src/worker.rs:925-951 | after any recreation its panel shows the steps of both phases in the order they ran, without repeats, all done but for at most the one that failed |
| Recreate.RecreateThatFitsShowsItsText | crates/kindboard-app/src/worker.rs:925-951 | when the text of both phases fits 400 lines the panel shows exactly it |
| Recreate.PanelShowsTheRecreation | crates/kindboard-app/src/worker.rs:925-951 | if no event of a successful recreation was lost, its open panel shows the steps of both phases, all done, whatever other operations ran in between |
| Operations.Application.NextOpGen | crates/kindboard-app/src/app.rs:207-211 | the next generation, wrapping around |
| Operations.Application.IssueOp | crates/kindboard-app/src/app.rs:810-818 | stamps the operation and opens its panel |
| Operations.Application.HandleProvision | crates/kindboard-app/src/app.rs:314-324 | events of another generation are dropped |
| Operations.Application.HandleProvisionDone | crates/kindboard-app/src/app.rs:325-334 | results of another generation are dropped |
| Operations.Application.ClosePanel | crates/kindboard-app/src/app.rs:921-923 | removes the panel |
| Version.ParseUndoesDisplay | crates/kindboard-core/src/deps/mod.rs:76-100 | printing a version, with white space around it, and parsing is the identity |
| Version.ParsesExactlyTriples | crates/kindboard-core/src/deps/mod.rs:83-100 | the parser accepts exactly three non-empty digit groups below 2^32 and reads their numbers |
| Version.DisplayInjective | crates/kindboard-core/src/deps/mod.rs:76-80 | different versions print differently |
| Version.ParseVersion3 | crates/kindboard-core/src/deps/mod.rs:83-100 | trims, splits and reads a triple, or refuses |
| Version.ParseVersion3At | crates/kindboard-core/src/deps/mod.rs:615-621 | reads the maximal run of digits and dots at a position |
| Version.ScanForVersion | crates/kindboard-core/src/deps/mod.rs:597-607 | the version at the leftmost marker whose run is a triple |
| Version.RegexLike | crates/kindboard-core/src/deps/mod.rs:591-611 | the version the output names, by the kind of pattern |
| Version.LabelledVersion | crates/kindboard-core/src/deps/mod.rs:592-596 | the word after the first label |
| Version.MarkedVersion | crates/kindboard-core/src/deps/mod.rs:597-607 | the leftmost marked version, if any |
| Version.FindLabel | crates/kindboard-core/src/deps/mod.rs:593 | the first occurrence of the label |
| Version.FirstWordIs | crates/kindboard-core/src/deps/mod.rs:592-596 | the first word stands between white space or at an end of the text, and is missing from white space alone |
| Version.TrimDropsSurroundings | crates/kindboard-core/src/deps/mod.rs:84 | trimming removes exactly the surrounding white space |
| Version.RunAt | crates/kindboard-core/src/deps/mod.rs:616-620 | the run is the maximal one |
| Layout.ComputeLayout | crates/kindboard-core/src/k8s/model.rs:281-364 | the placed layers: sorted layers, services after the barycenter pass |
| Layout.OneNodePerObject | crates/kindboard-core/src/k8s/model.rs:281-364 | exactly one node for each laid-out object when no two services share an id |
| Layout.PositionsAreDistinct | crates/kindboard-core/src/k8s/model.rs:355-362 | no two nodes share a position |
| Layout.LayersSortedByName | crates/kindboard-core/src/k8s/model.rs:300-302 | all layers but the services' are sorted by name, ties in graph order, none lost |
| Layout.ServicesLosslessIff | crates/kindboard-core/src/k8s/model.rs:335-353 | the map loses no service exactly when the ids are distinct |
| Layout.ServicesStandByMean | crates/kindboard-core/src/k8s/model.rs:311-353 | services stand by mean index, unconnected ones last, ties in graph order |
| Layout.UnconnectedIff | crates/kindboard-core/src/k8s/model.rs:314-331 | a service is unconnected exactly when its selector is empty or no workload of its namespace has all its pairs among its labels |
| Layout.MeanIsAverage | crates/kindboard-core/src/k8s/model.rs:314-332 | the mean of a connected service, times the number of workloads it selects, is the sum of their places, and it lies between two of them |
| Layout.SmallerMeanStandsLeft | crates/kindboard-core/src/k8s/model.rs:333-353 | of two services with different means the smaller stands further left, one without a mean further right |
| Layout.NodesArePlaced | crates/kindboard-core/src/k8s/model.rs:355-363 | every node of a layer is placed, 180 to the right of the one before and 140 below the layer above |
| Layout.LayersInRankOrder | crates/kindboard-core/src/k8s/model.rs:355-362 | the five layers from top to bottom: namespaces, workloads, pods, services, ingresses |
| Layout.LayersHoldTheObjects | crates/kindboard-core/src/k8s/model.rs:285-302 | each layer but the services' holds one node for each object of its kind, and nothing else |
| Layout.IndexIsLast | crates/kindboard-core/src/k8s/model.rs:306-310 | each id is mapped to its last index |
| Layout.LayoutIdInjective | crates/kindboard-core/src/k8s/model.rs:377-391 | slash-free objects with the same id are the same |
| Layout.PlainServicesHaveDistinctIds | crates/kindboard-core/src/k8s/model.rs:377-395 | distinct slash-free services have distinct ids |
| Layout.OrderCoversMap | crates/kindboard-core/src/k8s/model.rs:340-352 | nothing is left over in the map |
| Layout.Reorder | crates/kindboard-core/src/k8s/model.rs:336-352 | drains the bucket and takes the nodes in the order of the means |
| Layout.Barycenter | crates/kindboard-core/src/k8s/model.rs:304-353 | the service layer after the pass |
| Layout.MeanIndex | crates/kindboard-core/src/k8s/model.rs:314-332 | the mean index of the selected workloads |
| Layout.ServiceOrder | crates/kindboard-core/src/k8s/model.rs:311-335 | one entry a service, in graph order |
| Layout.Place | crates/kindboard-core/src/k8s/model.rs:355-363 | every node of every layer at its grid position |
| Layout.WorkloadIndex | crates/kindboard-core/src/k8s/model.rs:306-310 | the index map of the workload layer |
| Layout.FillBucket | crates/kindboard-core/src/k8s/model.rs:285-299 | one node an object |
| Sorting.SortIsStable | crates/kindboard-core/src/k8s/model.rs:301 | elements that tie keep their order |
| Sorting.SortSorts | crates/kindboard-core/src/k8s/model.rs:301 | the result is sorted |
| Sorting.SortKeepsElements | crates/kindboard-core/src/k8s/model.rs:301 | no element is lost or added |
| Install.PlanInstall | crates/kindboard-core/src/deps/mod.rs:732-869 | which plan or error each tool and platform gives; every download in a plan has its digest check |
| Install.BinaryPlan | crates/kindboard-core/src/deps/mod.rs:911-1046 | refused exactly without a pinned digest; else the install directory is made, the pinned artifact downloaded and checked, and then exactly the steps that install it follow |
| Install.UnixTail | crates/kindboard-core/src/deps/mod.rs:972-1046 | an archive is unpacked into its own directory, each member made executable and moved under its file name, and what was downloaded and unpacked removed; anything else is itself made executable and moved |
| Install.WindowsTail | crates/kindboard-core/src/deps/mod.rs:1132-1198 | the same with tar.exe and PowerShell; a binary becomes an .exe |
| Install.UnixMembers | crates/kindboard-core/src/deps/mod.rs:1015-1034 | every archive member is made executable and then moved into the install directory |
| Install.WindowsMembers | crates/kindboard-core/src/deps/mod.rs:1171-1187 | every archive member is moved into the install directory |
| Install.BinaryShapeIsGated | crates/kindboard-core/src/deps/mod.rs:940-965 | every download of a binary plan has its gate |
| Install.CurlWritesDownloadPath | crates/kindboard-core/src/deps/mod.rs:936-950 | the download's output file is the checked path, whatever the curl supports |
| Install.PackageStepIsNoDownload | crates/kindboard-core/src/deps/mod.rs:750-833 | a package manager's step is never a download |
| Install.PackageStepIff | crates/kindboard-core/src/deps/mod.rs:750-833 | there is a package step exactly when the platform's own package manager has the tool; it installs that package, asks no question, and runs as root through pkexec where the platform has it |
| Install.CurlKeepsToHttps | crates/kindboard-core/src/deps/mod.rs:927-950 | the download keeps to https, redirects included, exactly when the host's curl can be told to; its size is limited and an HTTP error fails it |
| Install.RendersPieceByPiece | crates/kindboard-core/src/deps/mod.rs:874-891 | a template renders to the words of the platform and of an amd64 host, piece by piece |
| Install.PinIsForTheHost | crates/kindboard-core/src/deps/mod.rs:894-911 | the key of the pinned digest names the platform and the host's own architecture |
| Install.OutputFileIs | crates/kindboard-core/src/deps/mod.rs:1318-1325 | the output file of a command is what follows its first `-o` |
| Install.WorkPathsAreApart | crates/kindboard-core/src/deps/mod.rs:925-985 | the download and the extraction directory have different paths, both in the install directory |
| Install.WorkPathsAreOwn | crates/kindboard-core/src/deps/mod.rs:925-985 | different tools share neither path |
| Install.FileNameIs | crates/kindboard-core/src/deps/mod.rs:1015-1020 | a file name is the part after the last slash |
| Install.NothingStartsBeforeItsDownloadsPass | crates/kindboard-core/src/deps/mod.rs:1310-1338 | in every run of a gated plan no step after a download starts unless its file hashed to the pinned digest, letter case aside, and to exactly it when neither has capitals |
| Install.OtherContentsAreRefused | crates/kindboard-core/src/deps/mod.rs:1326-1345 | a download with another digest than the pinned one ends the run there, with a mismatch if its command ran, and nothing after it starts |
| Install.SameIgnoringCaseIff | crates/kindboard-core/src/deps/mod.rs:1440-1447 | digests without capitals count as the same exactly when they are equal |
| Install.SameLetterIff | crates/kindboard-core/src/deps/mod.rs:1440-1447 | characters count as the same exactly when they are equal or capital and small letter |
| Install.RunInstall | crates/kindboard-core/src/deps/mod.rs:1259-1387 | an installed tool runs nothing; else the run stops at the first step that is cancelled, fails or does not match |
| Install.RunStep | crates/kindboard-core/src/deps/mod.rs:1281-1374 | one step: goes on exactly when it is not cancelled, succeeds and passes its gate |
| Install.SuccessComesFromDetection | crates/kindboard-core/src/deps/mod.rs:1352-1362 | success hands on what a detection said: the last one, after every step went through, or the one after a failed command, which found the tool |
| Install.UrlIsAsPromisedIff | crates/kindboard-core/src/deps/mod.rs:874-898 | for every template the URL is that of the host's own architecture exactly off `aarch64`, or when it names no architecture |
| Install.Aarch64PlanChecksTheOtherArtifact | crates/kindboard-core/src/deps/mod.rs:874-965 | on `aarch64` a plan downloads the URL of an amd64 host and checks it against the digest pinned for arm64; for a template that names the architecture that is another URL than the promised one |
| Install.DownloadIsGated | crates/kindboard-core/src/deps/mod.rs:936-965 | the curl step of a plan is checked against the plan's pinned digest |
| Install.FindPin | crates/kindboard-core/src/deps/mod.rs:954-963 | the pinned digest of a key is found exactly when there is one |
| Install.FindCheck | crates/kindboard-core/src/deps/mod.rs:1326-1329 | the check of a file, if there is one |

## Left out

- egui rendering, themes, icons, the wizard, zoom and fit arithmetic, the website: user interface.
- Real subprocesses, tokio scheduling, kube-rs, YAML and JSON parsing, SHA-256, curl probing: their outcomes are parameters.
- `KindCommand` argument vectors and the tool registry's entries: tables. File names and the resource text of a plan, PowerShell scripts and the lines of a panel are represented by constructors.
- `spec.rs` and the record store: validation is a parameter of `BuildPlan.Build`.
- `windows_quote`, `k9s_argv` and terminal detection: the Windows round trip holds only without backslashes before quotes.
- `friendly_step` and step descriptions: label tables.
- Lossy UTF-8 decoding: `LineSplitter` works on bytes and `StderrTail` on characters with their UTF-8 lengths.
- Permission bits and symbolic links of replaced files, the creation of the parent directory, and every directory but the target's.
- Concurrency of writers, supervisors and rings is modelled on values, not by shared objects; the sequential code of one writer (`AtomicWrite`), the ring, the worker and the panels are classes.
- `Install.FileName`: takes member names to end in a plain file name; names that end in a slash or in dots are not handled as the path library does.
- `Install.Render`: templates are cut into text and placeholders beforehand; the four successive replacements are one pass.
- Layout.ServicesStandByMean: means are exact reals; the code compares 32-bit floats, in which unequal means of very many workloads may tie.
- Layout.MeanIndex: the same, the mean is an exact real; positions are integers.
- Operations.HandleProvisionDone: what the panel keeps; the follow-ups of a result on the tabs, the selection and the reconcile are left out.
- TopologicalSort.KahnDecides: excludes plans that repeat an id that starts out ready, which pop it more than once; `SortLoop.AcyclicIff` covers every plan with known dependencies.
- TopologicalSort.KahnOrders: the same; `SortCounts.ListsThePlanIff` covers every plan with known dependencies.
- Recreate.DoRecreate: whether saving the record succeeds is an outcome; what is saved, and the two checks behind the tolerated failure of a deletion, are not modelled.
- Bus timeouts and the bus-full notice: delivery is lossless where a theorem says so, otherwise events may be dropped.
- Topology generations shared by manual and automatic refresh, and the detection retry bound.
- The end of a follow stream: the pump goes on until the token fires.
- `Version.RegexLike`: the JSON and short-line strategies of version detection are not modelled.
- `AtomicWrite.Process.AtomicWrite`: says nothing of durability after success, because the directory is not synced.
- The counter of temporary names wraps at 2^64 in the code; `AtomicFile` lets every attempt use any process id and counter, and needs no freshness.
