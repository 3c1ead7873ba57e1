/**
 * What a supervised run hands over and when: the exit code is the child's own, and each ladder goes through at its
 * times. The other module says what never happens; here is what does.
 */
module SupervisorRuns {
  import opened Common
  import opened Supervisor

  // ---- the exit code ----

  /** Decided or handed over. */
  predicate Reports(e: Entry, outcome: Outcome) { (e.Decided? || e.Returned?) && e.outcome == outcome }

  /** Whatever the waiter has seen of the child, or has reported, is how the child died. */
  ghost predicate CodeInv(s: State) {
    && (s.waiter.Observed? ==> s.child == Dead(s.waiter.code))
    && (s.waiter.WaiterTermed? || s.waiter.InGrace? || s.waiter.AwaitDeath? ==> !s.waiter.outcome.Exit?)
    && (s.waiter.Draining? ==> Honest(s.child, s.waiter.outcome))
    && AllHonest(s.log, s.child)
  }

  predicate Honest(child: Child, outcome: Outcome) { outcome.Exit? ==> child == Dead(outcome.code) }

  ghost predicate AllHonest(log: seq<Entry>, child: Child) {
    forall i :: 0 <= i < |log| && (log[i].Decided? || log[i].Returned?) ==> Honest(child, log[i].outcome)
  }

  lemma AppendHonest(log: seq<Entry>, e: Entry, child: Child)
    requires AllHonest(log, child) && (e.Decided? || e.Returned? ==> Honest(child, e.outcome))
    ensures AllHonest(log + [e], child)
  {
  }

  lemma QuietKeepsCode(s: State, a: Action, s': State)
    requires CodeInv(s) && Step(s, a) == Some(s') && Quiet(a)
    ensures CodeInv(s')
  {
    QuietStepNotes(s, a, s');
    AppendHonest(s.log, Note(s, a), s.child);
    ChildStays(s, a, s');
  }

  /** The waiter's quiet steps, and that a dead child stays as it died. */
  lemma ChildStays(s: State, a: Action, s': State)
    requires CodeInv(s) && Step(s, a) == Some(s') && Quiet(a)
    ensures s.child.Dead? ==> s'.child == s.child
    ensures !a.ChildDies? ==> s'.child == s.child
    ensures s'.waiter.Observed? ==> s'.child == Dead(s'.waiter.code)
    ensures s'.waiter.WaiterTermed? || s'.waiter.InGrace? || s'.waiter.AwaitDeath? ==> !s'.waiter.outcome.Exit?
  {
    OnlyDeathKills(s, a);
    if ByLadder(a) { LadderSeesNoExit(s, a, s'); } else if a.TryWait? { PollSees(s, s'); }
  }

  lemma LadderSeesNoExit(s: State, a: Action, s': State)
    requires CodeInv(s) && Step(s, a) == Some(s') && ByLadder(a)
    ensures !s'.waiter.Observed? && s'.child == s.child
    ensures s'.waiter.WaiterTermed? || s'.waiter.InGrace? || s'.waiter.AwaitDeath? ==> !s'.waiter.outcome.Exit?
  {
  }

  lemma PollSees(s: State, s': State)
    requires Step(s, TryWait) == Some(s')
    ensures s'.child == s.child && (s'.waiter.Observed? || s'.waiter.Selecting?)
    ensures s'.waiter.Observed? ==> s'.child == Dead(s'.waiter.code)
  {
  }

  lemma DecidingKeepsCode(s: State, a: Action, s': State)
    requires CodeInv(s) && Step(s, a) == Some(s') && Deciding(a)
    ensures CodeInv(s')
  {
    if a.CheckToken? {
      AppendHonest(s.log, Decided(if s.fired then Cancelled else Exit(s.waiter.code), s.now), s.child);
    } else {
      AppendHonest(s.log, Reaped(s.now), s.child);
      AppendHonest(Reap(s).log, Decided(if a.TryWaitFails? then AlreadyReaped else s.waiter.outcome, s.now), s.child);
    }
  }

  lemma LastStepsKeepCode(s: State, a: Action, s': State)
    requires CodeInv(s) && Step(s, a) == Some(s') && !Quiet(a) && !Deciding(a)
    ensures CodeInv(s')
  {
    if a.DropHandle? {
      var killed := if s.flag then s else Send(s, Kill, DropGuard);
      AppendHonest(s.log, Sent(Kill, DropGuard, s.now), s.child);
      AppendHonest(killed.log, Dropped(s.now), s.child);
    } else {
      AppendHonest(s.log, if a.ClosePipes? then PipesClosed(s.now) else Returned(s.waiter.outcome, s.now), s.child);
    }
  }

  lemma {:induction false} RunKeepsCode(s: State, schedule: seq<Action>)
    requires CodeInv(s)
    ensures CodeInv(Run(s, schedule))
  {
    if schedule != [] {
      var before, a := Run(s, schedule[..|schedule| - 1]), schedule[|schedule| - 1];
      RunKeepsCode(s, schedule[..|schedule| - 1]);
      match Step(before, a)
      case None =>
      case Some(s') =>
        if Quiet(a) { QuietKeepsCode(before, a, s'); }
        else if Deciding(a) { DecidingKeepsCode(before, a, s'); }
        else { LastStepsKeepCode(before, a, s'); }
    }
  }

  /** The child died with this code at step `i` of the schedule. */
  ghost predicate DiesAt(s: State, schedule: seq<Action>, i: int, code: Option<int>) {
    0 <= i < |schedule| && schedule[i] == ChildDies(code) && Run(s, schedule[..i]).child.Running?
  }

  lemma {:induction false} DeathHasCause(s: State, schedule: seq<Action>) returns (i: int)
    requires s.child.Running? && Run(s, schedule).child.Dead?
    ensures DiesAt(s, schedule, i, Run(s, schedule).child.code)
  {
    var front := schedule[..|schedule| - 1];
    OnlyDeathKills(Run(s, front), schedule[|schedule| - 1]);
    if Run(s, front).child.Running? {
      i := |schedule| - 1;
    } else {
      i := DeathHasCause(s, front);
      assert schedule[..i] == front[..i];
    }
  }

  lemma OnlyDeathKills(s: State, a: Action)
    ensures Step(s, a).Some? ==> Step(s, a).value.child == if a.ChildDies? then Dead(a.code) else s.child
    ensures Step(s, a).Some? && a.ChildDies? ==> s.child.Running?
  {
  }

  /** In every interleaving an exit that is decided or handed over carries the code the child died with. */
  lemma ExitIsTheChilds(timeout: nat, hasToken: bool, schedule: seq<Action>, j: nat, code: Option<int>)
    requires var log := Run(Init(timeout, hasToken), schedule).log; j < |log| && Reports(log[j], Exit(code))
    ensures exists i :: DiesAt(Init(timeout, hasToken), schedule, i, code)
  {
    var s := Init(timeout, hasToken);
    RunKeepsCode(s, schedule);
    var i := DeathHasCause(s, schedule);
  }

  /** What `wait` returns to its caller. */
  datatype ExecError = CommandFailed(code: Option<int>) | TimeoutExceeded | RunCancelled

  function ResultOf(outcome: Outcome): Result<(), ExecError> {
    match outcome
    case Exit(code) => if code == Some(0) then Success(()) else Failure(CommandFailed(code))
    case AlreadyReaped => Failure(CommandFailed(None))
    case TimedOut => Failure(TimeoutExceeded)
    case Cancelled => Failure(RunCancelled)
  }

  /** Success means that the child exited with 0 and that no token had fired when that was decided. */
  lemma SuccessMeansExitZero(timeout: nat, hasToken: bool, schedule: seq<Action>, j: nat)
    requires var log := Run(Init(timeout, hasToken), schedule).log; j < |log| && log[j].Returned? && ResultOf(log[j].outcome).Success?
    ensures exists i :: DiesAt(Init(timeout, hasToken), schedule, i, Some(0))
    ensures var log := Run(Init(timeout, hasToken), schedule).log;
      exists k :: IsDecisionOf(log, k, j) && forall i :: 0 <= i < k ==> !log[i].TokenFired?
  {
    ExitIsTheChilds(timeout, hasToken, schedule, j, Some(0));
    CancelledNeverSucceeds(timeout, hasToken, schedule, j);
  }

  /** What each error says of the run: how long it took, that the token fired, or with which code the child died. */
  lemma ErrorsTellTheRun(timeout: nat, hasToken: bool, schedule: seq<Action>, j: nat)
    requires var log := Run(Init(timeout, hasToken), schedule).log; j < |log| && log[j].Returned? && ResultOf(log[j].outcome).Failure?
    ensures var log := Run(Init(timeout, hasToken), schedule).log; var error := ResultOf(log[j].outcome).error;
      && (error.TimeoutExceeded? ==> log[j].at >= timeout)
      && (error.RunCancelled? ==> exists i :: 0 <= i < j && log[i].TokenFired?)
      && (error.CommandFailed? && error.code.Some? ==>
            error.code.value != 0 && exists i :: DiesAt(Init(timeout, hasToken), schedule, i, error.code))
      && (log[j].outcome.TimedOut? <==> error.TimeoutExceeded?) && (log[j].outcome.Cancelled? <==> error.RunCancelled?)
      && (log[j].outcome.AlreadyReaped? ==> error == CommandFailed(None))
  {
    var log := Run(Init(timeout, hasToken), schedule).log;
    match log[j].outcome
    case TimedOut => TimeoutNotBeforeItsTime(timeout, hasToken, schedule, j);
    case Cancelled => CancelledMeansFired(timeout, hasToken, schedule, j);
    case Exit(code) => ExitIsTheChilds(timeout, hasToken, schedule, j, code);
    case AlreadyReaped =>
  }

  // ---- the token ----

  /** Only a token that is attached fires, and it fires once. */
  ghost predicate TokenInv(s: State) {
    && (s.fired ==> s.hasToken)
    && (!s.fired ==> forall i :: 0 <= i < |s.log| ==> !s.log[i].TokenFired?)
    && (forall i, j :: 0 <= i < j < |s.log| && s.log[i].TokenFired? ==> !s.log[j].TokenFired?)
  }

  lemma FiresOnce(s: State, a: Action, s': State)
    requires TokenInv(s) && Step(s, a) == Some(s')
    ensures TokenInv(s') && s'.hasToken == s.hasToken
  {
    if a.FireToken? {
      assert s'.log == s.log + [TokenFired(s.now)] && s.hasToken && !s.fired;
    } else if Deciding(a) && !a.CheckToken? {
      assert s'.log == s.log + [Reaped(s.now), s'.log[|s.log| + 1]] && s'.log[|s.log| + 1].Decided? && s'.fired == s.fired;
    } else if Quiet(a) {
      QuietStepNotes(s, a, s');
      TokenStays(s, a, s');
    } else {
      LastStepsFireNothing(s, a, s');
    }
  }

  lemma TokenStays(s: State, a: Action, s': State)
    requires Step(s, a) == Some(s') && Quiet(a) && !a.FireToken?
    ensures s'.fired == s.fired && s'.hasToken == s.hasToken && !Note(s, a).TokenFired?
  {
    if ByWatcher(a) { WatcherFiresNothing(s, a, s'); } else if ByLadder(a) { LadderFiresNothing(s, a, s'); } else { PollsFireNothing(s, a, s'); }
  }

  lemma WatcherFiresNothing(s: State, a: Action, s': State)
    requires Step(s, a) == Some(s') && ByWatcher(a) && !a.FireToken?
    ensures s'.fired == s.fired && s'.hasToken == s.hasToken && !Note(s, a).TokenFired?
  {
  }

  lemma LadderFiresNothing(s: State, a: Action, s': State)
    requires Step(s, a) == Some(s') && ByLadder(a)
    ensures s'.fired == s.fired && s'.hasToken == s.hasToken && !Note(s, a).TokenFired?
  {
  }

  lemma PollsFireNothing(s: State, a: Action, s': State)
    requires Step(s, a) == Some(s') && Quiet(a) && !ByWatcher(a) && !ByLadder(a)
    ensures s'.fired == s.fired && s'.hasToken == s.hasToken && !Note(s, a).TokenFired?
  {
  }

  lemma LastStepsFireNothing(s: State, a: Action, s': State)
    requires TokenInv(s) && Step(s, a) == Some(s') && (a.CheckToken? || a.ClosePipes? || a.HandOver? || a.DropHandle?)
    ensures TokenInv(s') && s'.hasToken == s.hasToken
  {
  }

  lemma {:induction false} RunFiresOnce(s: State, schedule: seq<Action>)
    requires TokenInv(s)
    ensures TokenInv(Run(s, schedule)) && Run(s, schedule).hasToken == s.hasToken
  {
    if schedule != [] {
      var before := schedule[..|schedule| - 1];
      RunFiresOnce(s, before);
      match Step(Run(s, before), schedule[|schedule| - 1])
      case None =>
      case Some(s') => FiresOnce(Run(s, before), schedule[|schedule| - 1], s');
    }
  }

  /** A run without a token is never cancelled; a token fires at most once. */
  lemma NoTokenNoCancellation(timeout: nat, hasToken: bool, schedule: seq<Action>)
    ensures var log := Run(Init(timeout, hasToken), schedule).log;
      && (forall i, j :: 0 <= i < j < |log| && log[i].TokenFired? ==> !log[j].TokenFired?)
      && (!hasToken ==> forall i :: 0 <= i < |log| ==> !log[i].TokenFired? && !(log[i].Returned? && log[i].outcome.Cancelled?))
  {
    RunFiresOnce(Init(timeout, hasToken), schedule);
    var log := Run(Init(timeout, hasToken), schedule).log;
    if !hasToken {
      forall i | 0 <= i < |log| ensures !log[i].TokenFired? && !(log[i].Returned? && log[i].outcome.Cancelled?) {
        if log[i].Returned? && log[i].outcome.Cancelled? { CancelledMeansFired(timeout, hasToken, schedule, i); }
      }
    }
  }

  // ---- what does happen ----

  /** The state after one, two or three actions in a row. */
  function After1(s: State, a: Action): State { Run(s, [] + [a]) }

  function After2(s: State, a: Action, b: Action): State { Run(s, [] + [a] + [b]) }

  function After3(s: State, a: Action, b: Action, c: Action): State { Run(s, [] + [a] + [b] + [c]) }

  lemma OneStep(s: State, a: Action, s1: State)
    requires Step(s, a) == Some(s1)
    ensures After1(s, a) == s1
  {
    RunStep(s, [], a);
  }

  lemma TwoSteps(s: State, a: Action, b: Action, s1: State, s2: State)
    requires Step(s, a) == Some(s1) && Step(s1, b) == Some(s2)
    ensures After2(s, a, b) == s2
  {
    OneStep(s, a, s1);
    RunStep(s, [] + [a], b);
  }

  lemma ThreeSteps(s: State, a: Action, b: Action, c: Action, s1: State, s2: State, s3: State)
    requires Step(s, a) == Some(s1) && Step(s1, b) == Some(s2) && Step(s2, c) == Some(s3)
    ensures After3(s, a, b, c) == s3
  {
    TwoSteps(s, a, b, s1, s2);
    RunStep(s, [] + [a] + [b], c);
  }

  /** A dead child is reaped at the next poll, and then its own code or a cancellation is decided. */
  lemma ExitIsDecided(s: State, code: Option<int>)
    requires s.waiter.Polling? && s.child == Dead(code)
    ensures var outcome := if s.fired then Cancelled else Exit(code);
      var r := After2(s, TryWait, CheckToken);
      r.log == s.log + [Reaped(s.now), Decided(outcome, s.now)] && r.waiter == Draining(outcome) && r.pipesOpen == s.pipesOpen
  {
    var s1 := Reap(s).(waiter := Observed(code));
    TwoSteps(s, TryWait, CheckToken, s1, Decide(s1, if s.fired then Cancelled else Exit(code)));
  }

  /** A decision is handed over once the pipes are closed, and not before. */
  lemma DecisionIsHandedOver(s: State)
    requires s.waiter.Draining? && s.pipesOpen
    ensures After1(s, HandOver) == s
    ensures After2(s, ClosePipes, HandOver).log == s.log + [PipesClosed(s.now), Returned(s.waiter.outcome, s.now)]
  {
    var s1 := Log(s.(pipesOpen := false), PipesClosed(s.now));
    RunStep(s, [], HandOver);
    TwoSteps(s, ClosePipes, HandOver, s1, Log(s1.(waiter := Finished), Returned(s.waiter.outcome, s.now)));
  }

  /** The timeout counts from the start of the wait. */
  lemma WaitBegins(s: State)
    requires s.waiter.Streaming? && s.child.Running?
    ensures After2(s, BeginWait, TryWait) == s.(waiter := Selecting(s.now + s.timeout))
  {
    var due := s.now + s.timeout;
    var s1 := s.(waiter := Polling(due));
    var s2 := s1.(waiter := Selecting(due));
    PollSeesNothing(s1);
    TwoSteps(s, BeginWait, TryWait, s1, s2);
  }

  lemma PollSeesNothing(s: State)
    requires s.waiter.Polling? && s.child.Running?
    ensures Step(s, TryWait) == Some(s.(waiter := Selecting(s.waiter.deadline)))
  {
  }

  /** A child that has not exited by the deadline is terminated at the deadline. */
  lemma TimeoutStrikes(s: State)
    requires s.waiter.Selecting? && s.now <= s.waiter.deadline
    ensures var r := After2(s, Tick(s.waiter.deadline - s.now), DeadlinePasses);
      r.log == s.log + [Sent(Term, Waiter, s.waiter.deadline)] && r.waiter == WaiterTermed(TimedOut)
  {
    var wait := Tick(s.waiter.deadline - s.now);
    var s1 := s.(now := s.waiter.deadline);
    TwoSteps(s, wait, DeadlinePasses, s1, Send(s1.(waiter := WaiterTermed(TimedOut)), Term, Waiter));
  }

  /** A fired token that the waiting task sees has the child terminated at once. */
  lemma TokenStrikes(s: State)
    requires s.waiter.Selecting? && s.fired
    ensures var r := After1(s, TokenSeen); r.log == s.log + [Sent(Term, Waiter, s.now)] && r.waiter == WaiterTermed(Cancelled)
  {
    OneStep(s, TokenSeen, Send(s.(waiter := WaiterTermed(Cancelled)), Term, Waiter));
  }

  /** A child that ignores TERM is killed as soon as the grace period of five seconds is over. */
  lemma KillAfterGrace(s: State)
    requires s.waiter.WaiterTermed?
    ensures var r := After3(s, StartGrace, Tick(KILL_GRACE), GraceEndsInKill);
      r.log == s.log + [Sent(Kill, Waiter, s.now + 5000)] && r.waiter == AwaitDeath(s.waiter.outcome)
  {
    var end := s.now + KILL_GRACE;
    var s1 := s.(waiter := InGrace(end, s.waiter.outcome));
    var s2 := s1.(now := end);
    ThreeSteps(s, StartGrace, Tick(KILL_GRACE), GraceEndsInKill, s1, s2, Send(s2.(waiter := AwaitDeath(s.waiter.outcome)), Kill, Waiter));
  }

  /** When the child is dead, whether it exited on TERM or was killed, the ladder's outcome is decided. */
  lemma DeathEndsLadder(s: State)
    requires s.child.Dead? && (s.waiter.InGrace? || s.waiter.AwaitDeath?)
    ensures var a := if s.waiter.InGrace? then GraceEndsInExit else DeathObserved;
      var r := After1(s, a);
      r.log == s.log + [Reaped(s.now), Decided(s.waiter.outcome, s.now)] && r.waiter == Draining(s.waiter.outcome)
  {
    var a := if s.waiter.InGrace? then GraceEndsInExit else DeathObserved;
    OneStep(s, a, Decide(Reap(s), s.waiter.outcome));
  }

  /** The watcher's ladder runs while nobody waits: TERM as soon as the token fires, */
  lemma WatcherTerms(s: State)
    requires s.watcher.AwaitToken? && s.hasToken && !s.fired && !s.flag
    ensures var r := After2(s, FireToken, WatcherChecks);
      r.log == s.log + [TokenFired(s.now), Sent(Term, Watcher, s.now)] && r.watcher.WatcherTermed? && !r.flag && r.now == s.now
  {
    var s1 := Log(s.(fired := true), TokenFired(s.now));
    TwoSteps(s, FireToken, WatcherChecks, s1, Send(s1.(watcher := WatcherTermed), Term, Watcher));
  }

  /** and KILL as soon as the grace period is over. */
  lemma WatcherKills(s: State)
    requires s.watcher.WatcherTermed? && !s.flag
    ensures After3(s, WatcherStartsSleep, Tick(KILL_GRACE), WatcherWakes).log == s.log + [Sent(Kill, Watcher, s.now + 5000)]
  {
    var s1 := s.(watcher := WatcherSleeps(s.now + KILL_GRACE));
    var s2 := s1.(now := s.now + KILL_GRACE);
    ThreeSteps(s, WatcherStartsSleep, Tick(KILL_GRACE), WatcherWakes, s1, s2, Send(s2.(watcher := WatcherDone), Kill, Watcher));
  }

  /** A caller that has not begun to wait may terminate the group itself. */
  lemma OwnerMayTerminate(s: State)
    requires s.waiter.Streaming?
    ensures After1(s, OwnerTerminates) == Send(s, Term, Owner)
  {
    OneStep(s, OwnerTerminates, Send(s, Term, Owner));
  }

  /** While nothing has happened the wait goes on polling. */
  lemma PollingGoesOn(s: State)
    requires s.waiter.Polling? && s.child.Running?
    ensures After2(s, TryWait, PollAgain) == s
  {
    var s1 := s.(waiter := Selecting(s.waiter.deadline));
    TwoSteps(s, TryWait, PollAgain, s1, s);
  }

  /** A poll that fails counts as already reaped. */
  lemma FailedPollEnds(s: State)
    requires s.waiter.Polling?
    ensures After1(s, TryWaitFails).log == s.log + [Reaped(s.now), Decided(AlreadyReaped, s.now)]
  {
    OneStep(s, TryWaitFails, Decide(Reap(s), AlreadyReaped));
  }

  /** A dropped handle: a child that was not reaped is killed at once, and reaped by the runtime when it is dead. */
  lemma DropKillsAndReaps(s: State, code: Option<int>)
    requires !s.waiter.Gone? && !s.flag && !s.reaped && s.child.Running?
    ensures After3(s, DropHandle, ChildDies(code), RuntimeReaps).log
      == s.log + [Sent(Kill, DropGuard, s.now), Dropped(s.now), Reaped(s.now)]
  {
    var s1 := Log(Send(s.(flag := true), Kill, DropGuard).(waiter := Gone), Dropped(s.now));
    var s2 := s1.(child := Dead(code));
    ThreeSteps(s, DropHandle, ChildDies(code), RuntimeReaps, s1, s2, Reap(s2));
  }
}
