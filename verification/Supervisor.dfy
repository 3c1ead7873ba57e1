/**
 * Supervision of one subprocess. A cancel watcher, a waiter and a drop guard share the TERM, grace, KILL
 * ladder over a clock. Reaping sets the shared flag in the same step, and a flag check is one step with the
 * signal it guards.
 */
module Supervisor {
  import opened Common

  /** Milliseconds between TERM and KILL. */
  const KILL_GRACE: nat := 5000

  datatype Signal = Term | Kill

  /** Who signals; the owner is a caller that terminates the group by hand before it waits. */
  datatype Sender = Watcher | Waiter | DropGuard | Owner

  datatype Outcome = Exit(code: Option<int>) | TimedOut | Cancelled | AlreadyReaped

  /** The history of a run. */
  datatype Entry =
    | Sent(signal: Signal, from: Sender, at: nat)
    | TokenFired(at: nat)
    | Reaped(at: nat)
    | Decided(outcome: Outcome, at: nat)          // the waiter knows how the run ended
    | PipesClosed(at: nat)                        // nobody holds a writing end of stdout or stderr any more
    | Returned(outcome: Outcome, at: nat)         // `wait` hands the result to its caller
    | Dropped(at: nat)

  datatype Child = Running | Dead(code: Option<int>)

  datatype WatcherPhase = AwaitToken | WatcherTermed | WatcherSleeps(until: nat) | WatcherDone

  datatype WaiterPhase =
    | Streaming                                  // handle held, `wait` not called yet
    | Polling(deadline: nat)                     // about to call `try_wait`
    | Selecting(deadline: nat)                   // in the select over deadline, token and poll interval
    | Observed(code: Option<int>)                // reaped, token not looked at yet
    | WaiterTermed(outcome: Outcome)
    | InGrace(until: nat, outcome: Outcome)
    | AwaitDeath(outcome: Outcome)
    | Draining(outcome: Outcome)                 // decided; both pipes are read to their end
    | Finished
    | Gone                                       // handle dropped

  datatype State = State(
    now: nat, timeout: nat, hasToken: bool, fired: bool,
    child: Child, reaped: bool, flag: bool, pipesOpen: bool,
    watcher: WatcherPhase, waiter: WaiterPhase, log: seq<Entry>)

  function Init(timeout: nat, hasToken: bool): State {
    State(0, timeout, hasToken, false, Running, false, false, true, AwaitToken, Streaming, [])
  }

  datatype Action =
    | Tick(ms: nat)
    | FireToken
    | ChildDies(code: Option<int>)
    | WatcherChecks | WatcherStartsSleep | WatcherWakes
    | OwnerTerminates
    | BeginWait | TryWait | TryWaitFails | CheckToken
    | DeadlinePasses | TokenSeen | PollAgain
    | StartGrace | GraceEndsInExit | GraceEndsInKill | DeathObserved
    | ClosePipes | HandOver
    | DropHandle | RuntimeReaps

  function Log(s: State, e: Entry): State { s.(log := s.log + [e]) }

  function Send(s: State, signal: Signal, from: Sender): State { Log(s, Sent(signal, from, s.now)) }

  /** Reap the child and set the flag. */
  function Reap(s: State): State { Log(s.(reaped := true, flag := true), Reaped(s.now)) }

  function Decide(s: State, outcome: Outcome): State {
    Log(s.(waiter := Draining(outcome)), Decided(outcome, s.now))
  }

  /** One step of the system; `None` when the action is not enabled. */
  function Step(s: State, a: Action): Option<State> {
    match a
    case Tick(ms) => Some(s.(now := s.now + ms))
    case FireToken => if s.hasToken && !s.fired then Some(Log(s.(fired := true), TokenFired(s.now))) else None
    case ChildDies(code) => if s.child.Running? then Some(s.(child := Dead(code))) else None
    case WatcherChecks =>
      if s.watcher.AwaitToken? && s.fired then
        Some(if s.flag then s.(watcher := WatcherDone) else Send(s.(watcher := WatcherTermed), Term, Watcher))
      else None
    case WatcherStartsSleep =>
      if s.watcher.WatcherTermed? then Some(s.(watcher := WatcherSleeps(s.now + KILL_GRACE))) else None
    case WatcherWakes =>
      if s.watcher.WatcherSleeps? && s.now >= s.watcher.until then
        Some(if s.flag then s.(watcher := WatcherDone) else Send(s.(watcher := WatcherDone), Kill, Watcher))
      else None
    case OwnerTerminates => if s.waiter.Streaming? then Some(Send(s, Term, Owner)) else None
    case BeginWait => if s.waiter.Streaming? then Some(s.(waiter := Polling(s.now + s.timeout))) else None
    case TryWait =>
      if !s.waiter.Polling? then None
      else if s.child.Dead? then Some(Reap(s).(waiter := Observed(s.child.code)))
      else Some(s.(waiter := Selecting(s.waiter.deadline)))
    case TryWaitFails => if s.waiter.Polling? then Some(Decide(Reap(s), AlreadyReaped)) else None
    case CheckToken =>
      if s.waiter.Observed? then Some(Decide(s, if s.fired then Cancelled else Exit(s.waiter.code))) else None
    case DeadlinePasses =>
      if s.waiter.Selecting? && s.now >= s.waiter.deadline then
        Some(Send(s.(waiter := WaiterTermed(TimedOut)), Term, Waiter))
      else None
    case TokenSeen =>
      if s.waiter.Selecting? && s.fired then Some(Send(s.(waiter := WaiterTermed(Cancelled)), Term, Waiter)) else None
    case PollAgain => if s.waiter.Selecting? then Some(s.(waiter := Polling(s.waiter.deadline))) else None
    case StartGrace =>
      if s.waiter.WaiterTermed? then Some(s.(waiter := InGrace(s.now + KILL_GRACE, s.waiter.outcome))) else None
    case GraceEndsInExit =>
      if s.waiter.InGrace? && s.child.Dead? then Some(Decide(Reap(s), s.waiter.outcome)) else None
    case GraceEndsInKill =>
      if s.waiter.InGrace? && s.now >= s.waiter.until then
        Some(Send(s.(waiter := AwaitDeath(s.waiter.outcome)), Kill, Waiter))
      else None
    case DeathObserved =>
      if s.waiter.AwaitDeath? && s.child.Dead? then Some(Decide(Reap(s), s.waiter.outcome)) else None
    case ClosePipes => if s.pipesOpen then Some(Log(s.(pipesOpen := false), PipesClosed(s.now))) else None
    case HandOver =>
      if s.waiter.Draining? && !s.pipesOpen then
        Some(Log(s.(waiter := Finished), Returned(s.waiter.outcome, s.now)))
      else None
    case DropHandle =>
      if s.waiter.Gone? then None
      else
        var s' := if s.flag then s else Send(s.(flag := true), Kill, DropGuard);
        Some(Log(s'.(waiter := Gone), Dropped(s.now)))
    case RuntimeReaps =>
      if s.waiter.Gone? && s.child.Dead? && !s.reaped then Some(Reap(s)) else None
  }

  /** The state after a schedule: disabled actions are skipped, so every schedule is an interleaving. */
  function Run(s: State, schedule: seq<Action>): State {
    if schedule == [] then s
    else
      var before := Run(s, schedule[..|schedule| - 1]);
      match Step(before, schedule[|schedule| - 1])
      case None => before
      case Some(s') => s'
  }

  // ---- what a history must look like ----

  ghost predicate AnyReaped(log: seq<Entry>) { exists i :: 0 <= i < |log| && log[i].Reaped? }

  ghost predicate AnyFired(log: seq<Entry>) { exists i :: 0 <= i < |log| && log[i].TokenFired? }

  ghost predicate AnySentBy(log: seq<Entry>, from: Sender) { exists i :: 0 <= i < |log| && log[i].Sent? && log[i].from == from }

  ghost predicate AnyDropped(log: seq<Entry>) { exists i :: 0 <= i < |log| && log[i].Dropped? }

  /** Entries carry the clock, which only moves forward. */
  ghost predicate Timed(log: seq<Entry>, now: nat) {
    && (forall i :: 0 <= i < |log| ==> log[i].at <= now)
    && (forall i, j :: 0 <= i < j < |log| ==> log[i].at <= log[j].at)
  }

  /** A TERM from this sender lies at least the grace period before the given time. */
  ghost predicate TermedBy(log: seq<Entry>, from: Sender, killAt: nat) {
    exists i :: 0 <= i < |log| && log[i].Sent? && log[i].signal == Term && log[i].from == from && log[i].at + KILL_GRACE <= killAt
  }

  ghost predicate TermedSince(log: seq<Entry>, from: Sender, now: nat) {
    exists i :: 0 <= i < |log| && log[i].Sent? && log[i].signal == Term && log[i].from == from && log[i].at <= now
  }

  /** Entry `j` is justified by the entries before it. */
  ghost predicate Justified(log: seq<Entry>, j: nat)
    requires j < |log|
  {
    var before := log[..j];
    match log[j]
    case Sent(signal, from, at) =>
      && !AnyReaped(before) && !AnyDropped(before) && !AnySentBy(before, DropGuard)
      && (signal == Kill && from != DropGuard ==> from != Owner && TermedBy(before, from, at))
      && (from == DropGuard ==> signal == Kill)
      && (from == Watcher ==> AnyFired(before))
    case Reaped(at) => !AnyReaped(before)
    case Decided(outcome, at) =>
      && AnyReaped(before)
      && (outcome.Exit? ==> !AnyFired(before) && !AnySentBy(before, Watcher) && !AnySentBy(before, Waiter) && !AnySentBy(before, DropGuard))
      && (outcome.Cancelled? ==> AnyFired(before))
    case Dropped(at) =>
      !AnyDropped(before) && (AnyReaped(before) || (j > 0 && log[j - 1] == Sent(Kill, DropGuard, at)))
    case TokenFired(at) => true
    case PipesClosed(at) => true
    case Returned(outcome, at) => AnyReaped(before)
  }

  ghost predicate AllJustified(log: seq<Entry>) {
    forall j :: 0 <= j < |log| ==> Justified(log, j)
  }

  /** What the state says about its history. */
  ghost predicate Inv(s: State) {
    && Timed(s.log, s.now) && AllJustified(s.log)
    && (s.reaped <==> AnyReaped(s.log))
    && (s.fired <==> AnyFired(s.log))
    && (s.waiter.Gone? <==> AnyDropped(s.log))
    && (s.flag <==> s.reaped || AnySentBy(s.log, DropGuard))
    && (AnySentBy(s.log, DropGuard) ==> s.waiter.Gone?)
    && WatcherInv(s) && WaiterInv(s)
  }

  ghost predicate WatcherInv(s: State) {
    match s.watcher
    case AwaitToken => !AnySentBy(s.log, Watcher)
    case WatcherTermed => TermedSince(s.log, Watcher, s.now) && s.fired
    case WatcherSleeps(until) => TermedBy(s.log, Watcher, until) && s.fired
    case WatcherDone => s.fired
  }

  ghost predicate WaiterInv(s: State) {
    match s.waiter
    case Streaming => !s.flag && !AnySentBy(s.log, Waiter)
    case Polling(_) => !s.flag && !AnySentBy(s.log, Waiter)
    case Selecting(_) => !s.flag && !AnySentBy(s.log, Waiter)
    case Observed(_) => s.reaped && !AnySentBy(s.log, Waiter)
    case WaiterTermed(outcome) => !s.flag && TermedSince(s.log, Waiter, s.now) && LadderOutcome(s, outcome)
    case InGrace(until, outcome) => !s.flag && TermedBy(s.log, Waiter, until) && LadderOutcome(s, outcome)
    case AwaitDeath(outcome) => !s.flag && LadderOutcome(s, outcome)
    case Draining(_) => s.reaped
    case Finished => s.reaped
    case Gone => s.flag
  }

  ghost predicate LadderOutcome(s: State, outcome: Outcome) {
    outcome == TimedOut || (outcome == Cancelled && s.fired)
  }

  // ---- appending to a history ----

  lemma AppendAny(log: seq<Entry>, e: Entry)
    ensures AnyReaped(log + [e]) <==> AnyReaped(log) || e.Reaped?
    ensures AnyFired(log + [e]) <==> AnyFired(log) || e.TokenFired?
    ensures AnyDropped(log + [e]) <==> AnyDropped(log) || e.Dropped?
    ensures forall from :: AnySentBy(log + [e], from) <==> AnySentBy(log, from) || (e.Sent? && e.from == from)
  {
    var more := log + [e];
    assert more[|log|] == e;
    assert forall i :: 0 <= i < |log| ==> more[i] == log[i];
    if AnyReaped(log) { var i :| 0 <= i < |log| && log[i].Reaped?; assert more[i].Reaped?; }
    if AnyFired(log) { var i :| 0 <= i < |log| && log[i].TokenFired?; assert more[i].TokenFired?; }
    if AnyDropped(log) { var i :| 0 <= i < |log| && log[i].Dropped?; assert more[i].Dropped?; }
    forall from ensures AnySentBy(more, from) <==> AnySentBy(log, from) || (e.Sent? && e.from == from) {
      if AnySentBy(log, from) {
        var i :| 0 <= i < |log| && log[i].Sent? && log[i].from == from;
        assert more[i].Sent? && more[i].from == from;
      }
    }
  }

  lemma AppendTerm(log: seq<Entry>, e: Entry, from: Sender, at: nat)
    ensures TermedBy(log, from, at) ==> TermedBy(log + [e], from, at)
    ensures TermedSince(log, from, at) ==> TermedSince(log + [e], from, at)
    ensures e == Sent(Term, from, at) ==> TermedSince(log + [e], from, at)
  {
    var more := log + [e];
    assert more[|log|] == e;
    if TermedBy(log, from, at) {
      var i :| 0 <= i < |log| && log[i].Sent? && log[i].signal == Term && log[i].from == from && log[i].at + KILL_GRACE <= at;
      assert more[i] == log[i];
    }
    if TermedSince(log, from, at) {
      var i :| 0 <= i < |log| && log[i].Sent? && log[i].signal == Term && log[i].from == from && log[i].at <= at;
      assert more[i] == log[i];
    }
  }

  lemma GraceAfterTerm(log: seq<Entry>, from: Sender, now: nat)
    requires TermedSince(log, from, now)
    ensures TermedBy(log, from, now + KILL_GRACE)
  {
  }

  lemma LaterIsFine(log: seq<Entry>, from: Sender, at: nat, later: nat)
    requires at <= later
    ensures TermedBy(log, from, at) ==> TermedBy(log, from, later)
    ensures TermedSince(log, from, at) ==> TermedSince(log, from, later)
  {
  }

  lemma AppendJustified(log: seq<Entry>, e: Entry, now: nat)
    requires AllJustified(log) && Timed(log, now) && e.at == now && Justified(log + [e], |log|)
    ensures AllJustified(log + [e]) && Timed(log + [e], now)
  {
    var more := log + [e];
    forall j | 0 <= j < |more| ensures Justified(more, j) {
      if j < |log| {
        assert more[..j] == log[..j] && more[j] == log[j];
        assert Justified(log, j);
        assert j > 0 ==> more[j - 1] == log[j - 1];
      }
    }
  }

  /** An entry with its justification keeps the history in order. */
  lemma LogKeepsHistory(s: State, e: Entry)
    requires AllJustified(s.log) && Timed(s.log, s.now) && e.at == s.now && Justified(s.log + [e], |s.log|)
    ensures AllJustified(Log(s, e).log) && Timed(Log(s, e).log, s.now)
  {
    AppendJustified(s.log, e, s.now);
  }

  // ---- every step keeps the invariant ----

  /** Steps of the watcher, or of time, that leave no trace. */
  lemma WatcherQuiet(s: State, a: Action, s': State)
    requires Inv(s) && Step(s, a) == Some(s') && s'.log == s.log
    requires a.Tick? || a.WatcherChecks? || a.WatcherStartsSleep? || a.WatcherWakes?
    ensures Inv(s')
  {
    LaterIsFine(s.log, Watcher, s.now, s'.now);
    LaterIsFine(s.log, Waiter, s.now, s'.now);
    if a.WatcherStartsSleep? { GraceAfterTerm(s.log, Watcher, s.now); }
  }

  /** Steps of the waiter and of the child that leave no trace. */
  lemma WaiterQuiet(s: State, a: Action, s': State)
    requires Inv(s) && Step(s, a) == Some(s') && s'.log == s.log
    requires a.ChildDies? || a.BeginWait? || a.TryWait? || a.PollAgain? || a.StartGrace?
    ensures Inv(s')
  {
    if a.StartGrace? { GraceAfterTerm(s.log, Waiter, s.now); }
  }

  /** Sending a justified signal: what the history then shows. */
  lemma SendKeeps(s: State, signal: Signal, from: Sender)
    requires Inv(s) && from != DropGuard && !s.flag
    requires signal == Kill ==> from != Owner && TermedBy(s.log, from, s.now)
    requires from == Watcher ==> s.fired
    ensures var r := Send(s, signal, from);
      && AllJustified(r.log) && Timed(r.log, s.now)
      && (AnyReaped(r.log) <==> s.reaped) && (AnyFired(r.log) <==> s.fired) && (AnyDropped(r.log) <==> s.waiter.Gone?)
      && (forall sender :: AnySentBy(r.log, sender) <==> AnySentBy(s.log, sender) || sender == from)
      && (signal == Term ==> TermedSince(r.log, from, s.now))
  {
    var e := Sent(signal, from, s.now);
    AppendAny(s.log, e);
    AppendTerm(s.log, e, from, s.now);
    assert (s.log + [e])[..|s.log|] == s.log;
    LogKeepsHistory(s, e);
  }

  lemma WatcherSignals(s: State, a: Action, s': State)
    requires Inv(s) && Step(s, a) == Some(s') && !s.flag && (a.WatcherChecks? || a.WatcherWakes?)
    ensures Inv(s')
  {
    var signal := if a.WatcherChecks? then Term else Kill;
    if a.WatcherWakes? { LaterIsFine(s.log, Watcher, s.watcher.until, s.now); }
    SendKeeps(s, signal, Watcher);
    AppendAllTerms(s, Sent(signal, Watcher, s.now));
  }

  lemma WaiterTerms(s: State, a: Action, s': State)
    requires Inv(s) && Step(s, a) == Some(s') && (a.DeadlinePasses? || a.TokenSeen?)
    ensures Inv(s')
  {
    SendKeeps(s, Term, Waiter);
    AppendAllTerms(s, Sent(Term, Waiter, s.now));
  }

  lemma WaiterKills(s: State, s': State)
    requires Inv(s) && Step(s, GraceEndsInKill) == Some(s')
    ensures Inv(s')
  {
    LaterIsFine(s.log, Waiter, s.waiter.until, s.now);
    SendKeeps(s, Kill, Waiter);
    AppendAllTerms(s, Sent(Kill, Waiter, s.now));
  }

  lemma OwnerSignals(s: State, s': State)
    requires Inv(s) && Step(s, OwnerTerminates) == Some(s')
    ensures Inv(s')
  {
    SendKeeps(s, Term, Owner);
    AppendAllTerms(s, Sent(Term, Owner, s.now));
  }

  /** Steps that note an event and signal nobody. */
  lemma NoteSteps(s: State, a: Action, s': State)
    requires Inv(s) && Step(s, a) == Some(s') && (a.FireToken? || a.ClosePipes? || a.HandOver?)
    ensures Inv(s')
  {
    var e := if a.FireToken? then TokenFired(s.now) else if a.ClosePipes? then PipesClosed(s.now) else Returned(s.waiter.outcome, s.now);
    assert (s.log + [e])[..|s.log|] == s.log;
    AppendAny(s.log, e);
    AppendAllTerms(s, e);
    LogKeepsHistory(s, e);
  }

  lemma AppendAllTerms(s: State, e: Entry)
    ensures forall from :: TermedSince(s.log, from, s.now) ==> TermedSince(s.log + [e], from, s.now)
    ensures s.watcher.WatcherSleeps? && TermedBy(s.log, Watcher, s.watcher.until) ==> TermedBy(s.log + [e], Watcher, s.watcher.until)
    ensures s.waiter.InGrace? && TermedBy(s.log, Waiter, s.waiter.until) ==> TermedBy(s.log + [e], Waiter, s.waiter.until)
  {
    forall from { AppendTerm(s.log, e, from, s.now); }
    if s.watcher.WatcherSleeps? { AppendTerm(s.log, e, Watcher, s.watcher.until); }
    if s.waiter.InGrace? { AppendTerm(s.log, e, Waiter, s.waiter.until); }
  }

  /** Reaping, alone or followed at once by the decision. */
  lemma ReapKeeps(s: State)
    requires Inv(s) && !s.reaped && (!s.flag || s.waiter.Gone?)
    ensures var r := Reap(s);
      && AllJustified(r.log) && Timed(r.log, s.now) && AnyReaped(r.log)
      && (AnyFired(r.log) <==> s.fired) && (AnyDropped(r.log) <==> s.waiter.Gone?)
      && (forall from :: AnySentBy(r.log, from) <==> AnySentBy(s.log, from))
      && WatcherInv(r)
  {
    var e := Reaped(s.now);
    AppendAny(s.log, e);
    AppendAllTerms(s, e);
    assert (s.log + [e])[..|s.log|] == s.log;
    LogKeepsHistory(s, e);
  }

  lemma DecideKeeps(s: State, outcome: Outcome)
    requires AllJustified(s.log) && Timed(s.log, s.now) && AnyReaped(s.log) && WatcherInv(s)
    requires outcome.Exit? ==> !AnyFired(s.log) && !AnySentBy(s.log, Watcher) && !AnySentBy(s.log, Waiter) && !AnySentBy(s.log, DropGuard)
    requires outcome.Cancelled? ==> AnyFired(s.log)
    ensures var r := Decide(s, outcome);
      && AllJustified(r.log) && Timed(r.log, s.now) && AnyReaped(r.log)
      && (AnyFired(r.log) <==> AnyFired(s.log)) && (AnyDropped(r.log) <==> AnyDropped(s.log))
      && (forall from :: AnySentBy(r.log, from) <==> AnySentBy(s.log, from))
      && WatcherInv(r)
  {
    var e := Decided(outcome, s.now);
    AppendAny(s.log, e);
    AppendAllTerms(s, e);
    assert (s.log + [e])[..|s.log|] == s.log;
    LogKeepsHistory(s, e);
  }

  lemma ReapSteps(s: State, a: Action, s': State)
    requires Inv(s) && Step(s, a) == Some(s')
    requires (a.TryWait? && s.child.Dead?) || a.RuntimeReaps?
    ensures Inv(s')
  {
    ReapKeeps(s);
  }

  lemma TokenDecides(s: State, s': State)
    requires Inv(s) && Step(s, CheckToken) == Some(s')
    ensures Inv(s')
  {
    WatcherNeedsToken(s);
    DecideKeeps(s, if s.fired then Cancelled else Exit(s.waiter.code));
  }

  lemma ReapAndDecide(s: State, a: Action, s': State)
    requires Inv(s) && Step(s, a) == Some(s') && (a.TryWaitFails? || a.GraceEndsInExit? || a.DeathObserved?)
    ensures Inv(s')
  {
    ReapKeeps(s);
    DecideKeeps(Reap(s), if a.TryWaitFails? then AlreadyReaped else s.waiter.outcome);
  }

  /** The watcher signals only after the token fired. */
  lemma WatcherNeedsToken(s: State)
    requires Inv(s)
    ensures AnySentBy(s.log, Watcher) ==> s.fired
  {
    if AnySentBy(s.log, Watcher) {
      var i :| 0 <= i < |s.log| && s.log[i].Sent? && s.log[i].from == Watcher;
      assert Justified(s.log, i);
      var k :| 0 <= k < i && s.log[..i][k].TokenFired?;
      assert s.log[k].TokenFired?;
    }
  }

  /** The entry of the drop itself, once nothing is left to kill. */
  lemma DropLogged(s: State)
    requires AllJustified(s.log) && Timed(s.log, s.now) && !AnyDropped(s.log)
    requires AnyReaped(s.log) || (s.log != [] && s.log[|s.log| - 1] == Sent(Kill, DropGuard, s.now))
    ensures var log := Log(s, Dropped(s.now)).log;
      && AllJustified(log) && Timed(log, s.now) && AnyDropped(log)
      && (AnyReaped(log) <==> AnyReaped(s.log)) && (AnyFired(log) <==> AnyFired(s.log))
      && (forall sender :: AnySentBy(log, sender) <==> AnySentBy(s.log, sender))
  {
    var e := Dropped(s.now);
    AppendAny(s.log, e);
    assert (s.log + [e])[..|s.log|] == s.log;
    LogKeepsHistory(s, e);
  }

  /** A reaped child is left alone. */
  lemma DropReaped(s: State)
    requires Inv(s) && s.flag && !s.waiter.Gone?
    ensures Inv(Step(s, DropHandle).value)
  {
    DropLogged(s);
    AppendAllTerms(s, Dropped(s.now));
  }

  /** The guard's signal is justified, whoever signalled before. */
  lemma GuardKills(s: State)
    requires Inv(s) && !s.flag && !s.waiter.Gone?
    ensures var log := Send(s, Kill, DropGuard).log;
      && AllJustified(log) && Timed(log, s.now) && !AnyReaped(log) && !AnyDropped(log) && AnySentBy(log, DropGuard)
      && (AnyFired(log) <==> s.fired) && (AnySentBy(log, Watcher) <==> AnySentBy(s.log, Watcher))
  {
    var e := Sent(Kill, DropGuard, s.now);
    AppendAny(s.log, e);
    assert (s.log + [e])[..|s.log|] == s.log;
    LogKeepsHistory(s, e);
  }

  lemma DropKills(s: State)
    requires Inv(s) && !s.flag && !s.waiter.Gone?
    ensures Inv(Step(s, DropHandle).value)
  {
    var kill, k := Sent(Kill, DropGuard, s.now), Send(s, Kill, DropGuard);
    GuardKills(s);
    DropLogged(k);
    AppendAllTerms(s, kill);
    AppendAllTerms(k, Dropped(s.now));
  }

  lemma StepKeepsInv(s: State, a: Action, s': State)
    requires Inv(s) && Step(s, a) == Some(s')
    ensures Inv(s')
  {
    match a
    case FireToken => NoteSteps(s, a, s');
    case ClosePipes => NoteSteps(s, a, s');
    case HandOver => NoteSteps(s, a, s');
    case WatcherChecks => WatcherMoves(s, a, s');
    case WatcherWakes => WatcherMoves(s, a, s');
    case WatcherStartsSleep => WatcherQuiet(s, a, s');
    case Tick(_) => WatcherQuiet(s, a, s');
    case DropHandle => DropKeeps(s, s');
    case RuntimeReaps => ReapSteps(s, a, s');
    case _ => WaiterMoves(s, a, s');
  }

  lemma WatcherMoves(s: State, a: Action, s': State)
    requires Inv(s) && Step(s, a) == Some(s') && (a.WatcherChecks? || a.WatcherWakes?)
    ensures Inv(s')
  {
    if s.flag { WatcherQuiet(s, a, s'); } else { WatcherSignals(s, a, s'); }
  }

  lemma DropKeeps(s: State, s': State)
    requires Inv(s) && Step(s, DropHandle) == Some(s')
    ensures Inv(s')
  {
    if s.flag { DropReaped(s); } else { DropKills(s); }
  }

  /** The waiter, the owner before it waits, and the child's death. */
  lemma WaiterMoves(s: State, a: Action, s': State)
    requires Inv(s) && Step(s, a) == Some(s')
    requires a.OwnerTerminates? || a.ChildDies? || a.BeginWait? || a.TryWait? || a.PollAgain? || a.StartGrace? || ByLadder(a) || Deciding(a)
    ensures Inv(s')
  {
    match a
    case OwnerTerminates => OwnerSignals(s, s');
    case TryWait => if s.child.Dead? { ReapSteps(s, a, s'); } else { WaiterQuiet(s, a, s'); }
    case DeadlinePasses => WaiterTerms(s, a, s');
    case TokenSeen => WaiterTerms(s, a, s');
    case GraceEndsInKill => WaiterKills(s, s');
    case CheckToken => TokenDecides(s, s');
    case _ => if Deciding(a) { ReapAndDecide(s, a, s'); } else { WaiterQuiet(s, a, s'); }
  }

  lemma {:induction false} RunKeepsInv(s: State, schedule: seq<Action>)
    requires Inv(s)
    ensures Inv(Run(s, schedule))
  {
    if schedule != [] {
      var before := schedule[..|schedule| - 1];
      RunKeepsInv(s, before);
      match Step(Run(s, before), schedule[|schedule| - 1])
      case None =>
      case Some(s') => StepKeepsInv(Run(s, before), schedule[|schedule| - 1], s');
    }
  }

  // ---- over every run ----

  lemma InitInv(timeout: nat, hasToken: bool)
    ensures Inv(Init(timeout, hasToken))
  {
  }

  lemma RunIsJustified(timeout: nat, hasToken: bool, schedule: seq<Action>, j: nat)
    requires j < |Run(Init(timeout, hasToken), schedule).log|
    ensures var log := Run(Init(timeout, hasToken), schedule).log; AllJustified(log) && Justified(log, j)
  {
    InitInv(timeout, hasToken);
    RunKeepsInv(Init(timeout, hasToken), schedule);
  }

  /**
   * A result comes from one decision, taken earlier, and is handed over after both pipes were closed. An exit
   * was decided before any token fired; no ladder and no guard signalled, neither before the decision nor
   * while the pipes were read.
   */
  lemma CancelledNeverSucceeds(timeout: nat, hasToken: bool, schedule: seq<Action>, j: nat)
    requires var log := Run(Init(timeout, hasToken), schedule).log; j < |log| && log[j].Returned? && log[j].outcome.Exit?
    ensures var log := Run(Init(timeout, hasToken), schedule).log;
      && (exists k :: IsDecisionOf(log, k, j) && forall i :: 0 <= i < k ==> !log[i].TokenFired?)
      && (forall i :: 0 <= i < j && log[i].Sent? ==> log[i].from == Owner)
  {
    var log := Run(Init(timeout, hasToken), schedule).log;
    var k := ResultWasDecided(timeout, hasToken, schedule, j);
    RunIsJustified(timeout, hasToken, schedule, k);
    assert forall i :: 0 <= i < k ==> log[..k][i] == log[i];
    var r :| 0 <= r < k && log[..k][r].Reaped?;
    forall i | 0 <= i < j && log[i].Sent? ensures log[i].from == Owner {
      if i > r { NothingSentAfterReaping(timeout, hasToken, schedule, r, i); }
    }
  }

  /** Between an exit and a cancellation the token decides alone: whether it fired before the decision. */
  lemma CancelledIffFiredBeforeDecision(timeout: nat, hasToken: bool, schedule: seq<Action>, j: nat, k: nat)
    requires var log := Run(Init(timeout, hasToken), schedule).log;
      IsDecisionOf(log, k, j) && (log[j].outcome.Exit? || log[j].outcome.Cancelled?)
    ensures var log := Run(Init(timeout, hasToken), schedule).log;
      log[j].outcome.Cancelled? <==> exists i :: 0 <= i < k && log[i].TokenFired?
  {
    RunIsJustified(timeout, hasToken, schedule, k);
    var log := Run(Init(timeout, hasToken), schedule).log;
    assert forall i :: 0 <= i < k ==> log[..k][i] == log[i];
    if log[j].outcome.Cancelled? {
      var i :| 0 <= i < k && log[..k][i].TokenFired?;
      assert log[i].TokenFired?;
    }
  }

  /** A token that fires while the pipes are read comes too late: the run is still reported as a success. */
  lemma LateTokenStillSucceeds(timeout: nat)
    ensures Run(Init(timeout, true), LATE_TOKEN).log ==
      [Reaped(0), Decided(Exit(Some(0)), 0), TokenFired(0), PipesClosed(0), Returned(Exit(Some(0)), 0)]
  {
    var s := Init(timeout, true);
    var waiting := [] + [BeginWait];
    var dead := waiting + [ChildDies(Some(0))];
    var decided := dead + [TryWait] + [CheckToken];
    RunStep(s, [], BeginWait);
    RunStep(s, waiting, ChildDies(Some(0)));
    RunStep(s, dead, TryWait);
    RunStep(s, dead + [TryWait], CheckToken);
    LateTokenTail(s, decided, Exit(Some(0)));
    assert LATE_TOKEN == decided + [FireToken] + [ClosePipes] + [HandOver];
  }

  /** From a decision on, while the pipes are open and the token is quiet. */
  lemma LateTokenTail(s: State, schedule: seq<Action>, outcome: Outcome)
    requires var d := Run(s, schedule); d.waiter == Draining(outcome) && d.pipesOpen && d.hasToken && !d.fired
    ensures var d := Run(s, schedule);
      Run(s, schedule + [FireToken] + [ClosePipes] + [HandOver]).log == d.log + [TokenFired(d.now), PipesClosed(d.now), Returned(outcome, d.now)]
  {
    RunStep(s, schedule, FireToken);
    RunStep(s, schedule + [FireToken], ClosePipes);
    RunStep(s, schedule + [FireToken] + [ClosePipes], HandOver);
  }

  lemma RunStep(s: State, schedule: seq<Action>, a: Action)
    ensures Run(s, schedule + [a]) == match Step(Run(s, schedule), a) case None => Run(s, schedule) case Some(s') => s'
  {
    assert (schedule + [a])[..|schedule|] == schedule;
  }

  /** The child exits with 0 and is reaped; the token fires before its pipes are closed. */
  const LATE_TOKEN: seq<Action> :=
    [BeginWait, ChildDies(Some(0)), TryWait, CheckToken, FireToken, ClosePipes, HandOver]

  /** Cancellation is reported only when the token did fire. */
  lemma CancelledMeansFired(timeout: nat, hasToken: bool, schedule: seq<Action>, j: nat)
    requires var log := Run(Init(timeout, hasToken), schedule).log; j < |log| && log[j].Returned? && log[j].outcome.Cancelled?
    ensures var log := Run(Init(timeout, hasToken), schedule).log; exists i :: 0 <= i < j && log[i].TokenFired?
  {
    var k := ResultWasDecided(timeout, hasToken, schedule, j);
    CancelledIffFiredBeforeDecision(timeout, hasToken, schedule, j, k);
  }

  /** A ladder's KILL comes at least the grace period after the first TERM of that ladder. */
  lemma KillWaitsForGrace(timeout: nat, hasToken: bool, schedule: seq<Action>, j: nat)
    requires var log := Run(Init(timeout, hasToken), schedule).log;
      j < |log| && log[j].Sent? && log[j].signal == Kill && log[j].from != DropGuard
    ensures var log := Run(Init(timeout, hasToken), schedule).log;
      exists i :: FirstTerm(log, log[j].from, i) && i < j && log[i].at + KILL_GRACE <= log[j].at
  {
    RunIsJustified(timeout, hasToken, schedule, j);
    RunKeepsTime(timeout, hasToken, schedule);
    var log := Run(Init(timeout, hasToken), schedule).log;
    var from := log[j].from;
    var i :| 0 <= i < j && log[..j][i].Sent? && log[..j][i].signal == Term && log[..j][i].from == from && log[..j][i].at + KILL_GRACE <= log[j].at;
    assert log[i] == Sent(Term, from, log[i].at);
    var k := EarliestTerm(log, from, i);
    assert k < i ==> log[k].at <= log[i].at;
  }

  /** The first TERM this sender sent. */
  ghost predicate FirstTerm(log: seq<Entry>, from: Sender, i: int) {
    && 0 <= i < |log| && IsTerm(log[i], from)
    && forall k :: 0 <= k < i ==> !IsTerm(log[k], from)
  }

  ghost predicate IsTerm(e: Entry, from: Sender) { e.Sent? && e.signal == Term && e.from == from }

  lemma {:induction false} EarliestTerm(log: seq<Entry>, from: Sender, i: nat) returns (k: nat)
    requires i < |log| && IsTerm(log[i], from)
    ensures k <= i && FirstTerm(log, from, k)
  {
    k := i;
    if j: nat :| j < i && IsTerm(log[j], from) {
      k := EarliestTerm(log, from, j);
    }
  }

  lemma RunKeepsTime(timeout: nat, hasToken: bool, schedule: seq<Action>)
    ensures var s := Run(Init(timeout, hasToken), schedule); Timed(s.log, s.now)
  {
    InitInv(timeout, hasToken);
    RunKeepsInv(Init(timeout, hasToken), schedule);
  }

  /** Nothing is signalled after the child was reaped or its handle dropped, and it is reaped at most once. */
  lemma NothingSentAfterReaping(timeout: nat, hasToken: bool, schedule: seq<Action>, i: nat, j: nat)
    requires var log := Run(Init(timeout, hasToken), schedule).log; i < j < |log| && (log[i].Reaped? || log[i].Dropped?)
    ensures var log := Run(Init(timeout, hasToken), schedule).log; !log[j].Sent? && (log[i].Reaped? ==> !log[j].Reaped?)
  {
    RunIsJustified(timeout, hasToken, schedule, j);
    var log := Run(Init(timeout, hasToken), schedule).log;
    assert log[..j][i] == log[i];
  }

  /** A handle dropped before its child was reaped is killed by the drop guard in that step. */
  lemma DroppedUnreapedIsKilled(timeout: nat, hasToken: bool, schedule: seq<Action>, j: nat)
    requires var log := Run(Init(timeout, hasToken), schedule).log;
      j < |log| && log[j].Dropped? && (forall i :: 0 <= i < j ==> !log[i].Reaped?)
    ensures var log := Run(Init(timeout, hasToken), schedule).log; j > 0 && log[j - 1] == Sent(Kill, DropGuard, log[j].at)
  {
    RunIsJustified(timeout, hasToken, schedule, j);
    var log := Run(Init(timeout, hasToken), schedule).log;
    assert forall i :: 0 <= i < j ==> log[..j][i] == log[i];
  }

  /** A result is reported only after the child was reaped. */
  lemma ReturnedAfterReaping(timeout: nat, hasToken: bool, schedule: seq<Action>, j: nat)
    requires var log := Run(Init(timeout, hasToken), schedule).log; j < |log| && log[j].Returned?
    ensures var log := Run(Init(timeout, hasToken), schedule).log; exists i :: 0 <= i < j && log[i].Reaped?
  {
    RunIsJustified(timeout, hasToken, schedule, j);
    var log := Run(Init(timeout, hasToken), schedule).log;
    var i :| 0 <= i < j && log[..j][i].Reaped?;
    assert log[i].Reaped?;
  }

  // ---- from the decision to the result ----

  /** Entry `k` is the one decision, before entry `j`, that result `j` reports; both pipes were closed by then. */
  ghost predicate IsDecisionOf(log: seq<Entry>, k: int, j: int) {
    && 0 <= k < j < |log| && log[j].Returned? && log[k].Decided? && log[k].outcome == log[j].outcome
    && (forall i :: 0 <= i < |log| && log[i].Decided? ==> i == k)
    && (exists i :: 0 <= i < j && log[i].PipesClosed?)
  }

  ghost predicate AnyClosed(log: seq<Entry>) { exists i :: 0 <= i < |log| && log[i].PipesClosed? }

  ghost predicate AnyDecided(log: seq<Entry>) { exists i :: 0 <= i < |log| && log[i].Decided? }

  ghost predicate DecidedAs(log: seq<Entry>, outcome: Outcome) {
    exists k :: 0 <= k < |log| && log[k].Decided? && log[k].outcome == outcome
  }

  /** What may follow a history: a decision once, and a result only as decided and with the pipes closed. */
  ghost predicate MayFollow(log: seq<Entry>, e: Entry) {
    && (e.Decided? ==> !AnyDecided(log))
    && (e.Returned? ==> DecidedAs(log, e.outcome) && AnyClosed(log))
  }

  ghost predicate ResultsDecided(log: seq<Entry>) {
    forall j :: 0 <= j < |log| ==> MayFollow(log[..j], log[j])
  }

  ghost predicate ResultInv(s: State) {
    && ResultsDecided(s.log)
    && (!s.pipesOpen ==> AnyClosed(s.log))
    && (AnyDecided(s.log) ==> Settled(s.waiter))
    && (s.waiter.Draining? ==> DecidedAs(s.log, s.waiter.outcome))
  }

  lemma AppendResult(log: seq<Entry>, e: Entry)
    requires ResultsDecided(log) && MayFollow(log, e)
    ensures ResultsDecided(log + [e])
    ensures AnyDecided(log + [e]) <==> AnyDecided(log) || e.Decided?
    ensures AnyClosed(log + [e]) <==> AnyClosed(log) || e.PipesClosed?
    ensures e.Decided? ==> DecidedAs(log + [e], e.outcome)
    ensures forall outcome :: DecidedAs(log, outcome) ==> DecidedAs(log + [e], outcome)
  {
    var more := log + [e];
    assert more[|log|] == e && more[..|log|] == log;
    assert forall i :: 0 <= i < |log| ==> more[i] == log[i] && more[..i] == log[..i];
    forall outcome | DecidedAs(log, outcome) ensures DecidedAs(more, outcome) {
      var k :| 0 <= k < |log| && log[k].Decided? && log[k].outcome == outcome;
      assert more[k] == log[k];
    }
  }

  /** One entry is noted that is no decision and no result. */
  lemma QuietEntry(s: State, e: Entry, s': State)
    requires ResultInv(s) && s'.log == s.log + [e] && !e.Decided? && !e.Returned? && s'.pipesOpen == s.pipesOpen
    requires s'.waiter == s.waiter || s'.waiter.Gone? || (!AnyDecided(s.log) && !s'.waiter.Draining?)
    ensures ResultInv(s')
  {
    AppendResult(s.log, e);
  }

  /** The waiter decides on a state that only just reaped the child. */
  lemma DecisionEntry(s: State, outcome: Outcome)
    requires ResultInv(s) && !AnyDecided(s.log)
    ensures ResultInv(Decide(s, outcome))
  {
    AppendResult(s.log, Decided(outcome, s.now));
  }

  /** The signal, firing or reaping that a step may note. */
  function Note(s: State, a: Action): Entry {
    match a
    case FireToken => TokenFired(s.now)
    case WatcherChecks => Sent(Term, Watcher, s.now)
    case WatcherWakes => Sent(Kill, Watcher, s.now)
    case OwnerTerminates => Sent(Term, Owner, s.now)
    case DeadlinePasses => Sent(Term, Waiter, s.now)
    case TokenSeen => Sent(Term, Waiter, s.now)
    case GraceEndsInKill => Sent(Kill, Waiter, s.now)
    case _ => Reaped(s.now)
  }

  predicate Quiet(a: Action) { !Deciding(a) && !a.ClosePipes? && !a.HandOver? && !a.DropHandle? }

  predicate Settled(waiter: WaiterPhase) { waiter.Draining? || waiter.Finished? || waiter.Gone? }

  predicate ByWatcher(a: Action) { a.FireToken? || a.WatcherChecks? || a.WatcherStartsSleep? || a.WatcherWakes? || a.OwnerTerminates? }

  predicate ByLadder(a: Action) { a.DeadlinePasses? || a.TokenSeen? || a.GraceEndsInKill? || a.StartGrace? }

  ghost predicate Notes(s: State, e: Entry, s': State) {
    && (s'.log == s.log || s'.log == s.log + [e])
    && s'.pipesOpen == s.pipesOpen && s'.timeout == s.timeout
    && (s'.waiter == s.waiter || (!Settled(s.waiter) && !Settled(s'.waiter)))
  }

  lemma WatcherNotes(s: State, a: Action, s': State)
    requires Step(s, a) == Some(s') && ByWatcher(a)
    ensures Notes(s, Note(s, a), s')
  {
  }

  lemma LadderNotes(s: State, a: Action, s': State)
    requires Step(s, a) == Some(s') && ByLadder(a)
    ensures Notes(s, Note(s, a), s')
  {
  }

  lemma QuietStepNotes(s: State, a: Action, s': State)
    requires Step(s, a) == Some(s') && Quiet(a)
    ensures Notes(s, Note(s, a), s')
  {
    if ByWatcher(a) { WatcherNotes(s, a, s'); } else if ByLadder(a) { LadderNotes(s, a, s'); }
    else if a.TryWait? || a.RuntimeReaps? { ReapNotes(s, a, s'); } else { PollNotes(s, a, s'); }
  }

  lemma ReapNotes(s: State, a: Action, s': State)
    requires Step(s, a) == Some(s') && (a.TryWait? || a.RuntimeReaps?)
    ensures Notes(s, Note(s, a), s')
  {
    assert Note(s, a) == Reaped(s.now);
    assert Reap(s).log == s.log + [Reaped(s.now)];
  }

  lemma PollNotes(s: State, a: Action, s': State)
    requires Step(s, a) == Some(s') && (a.Tick? || a.ChildDies? || a.BeginWait? || a.PollAgain?)
    ensures Notes(s, Note(s, a), s')
  {
  }

  /** Steps that note nothing, or one signal, firing or reaping. */
  lemma QuietSteps(s: State, a: Action, s': State)
    requires ResultInv(s) && Step(s, a) == Some(s') && Quiet(a)
    ensures ResultInv(s')
  {
    QuietStepNotes(s, a, s');
    AppendResult(s.log, Note(s, a));
  }

  predicate Deciding(a: Action) { a.CheckToken? || a.TryWaitFails? || a.GraceEndsInExit? || a.DeathObserved? }

  lemma DecidingSteps(s: State, a: Action, s': State)
    requires ResultInv(s) && Step(s, a) == Some(s') && Deciding(a)
    ensures ResultInv(s')
  {
    if a.CheckToken? {
      DecisionEntry(s, if s.fired then Cancelled else Exit(s.waiter.code));
    } else {
      QuietEntry(s, Reaped(s.now), Reap(s));
      DecisionEntry(Reap(s), if a.TryWaitFails? then AlreadyReaped else s.waiter.outcome);
    }
  }

  lemma DropStep(s: State, s': State)
    requires ResultInv(s) && Step(s, DropHandle) == Some(s')
    ensures ResultInv(s')
  {
    if s.flag {
      QuietEntry(s, Dropped(s.now), s');
    } else {
      var killed := Send(s.(flag := true), Kill, DropGuard);
      QuietEntry(s, Sent(Kill, DropGuard, s.now), killed);
      QuietEntry(killed, Dropped(s.now), s');
    }
  }

  lemma PipeSteps(s: State, a: Action, s': State)
    requires ResultInv(s) && Step(s, a) == Some(s') && (a.ClosePipes? || a.HandOver?)
    ensures ResultInv(s')
  {
    AppendResult(s.log, if a.ClosePipes? then PipesClosed(s.now) else Returned(s.waiter.outcome, s.now));
  }

  lemma StepKeepsResults(s: State, a: Action, s': State)
    requires ResultInv(s) && Step(s, a) == Some(s')
    ensures ResultInv(s')
  {
    if Quiet(a) { QuietSteps(s, a, s'); }
    else if Deciding(a) { DecidingSteps(s, a, s'); }
    else if a.DropHandle? { DropStep(s, s'); }
    else { PipeSteps(s, a, s'); }
  }

  lemma {:induction false} RunKeepsResults(s: State, schedule: seq<Action>)
    requires ResultInv(s)
    ensures ResultInv(Run(s, schedule))
  {
    if schedule != [] {
      var before := schedule[..|schedule| - 1];
      RunKeepsResults(s, before);
      match Step(Run(s, before), schedule[|schedule| - 1])
      case None =>
      case Some(s') => StepKeepsResults(Run(s, before), schedule[|schedule| - 1], s');
    }
  }

  /** Every result was decided, once, before it was handed over. */
  lemma ResultWasDecided(timeout: nat, hasToken: bool, schedule: seq<Action>, j: nat) returns (k: nat)
    requires var log := Run(Init(timeout, hasToken), schedule).log; j < |log| && log[j].Returned?
    ensures IsDecisionOf(Run(Init(timeout, hasToken), schedule).log, k, j)
  {
    RunKeepsResults(Init(timeout, hasToken), schedule);
    var log := Run(Init(timeout, hasToken), schedule).log;
    assert MayFollow(log[..j], log[j]);
    k :| 0 <= k < j && log[..j][k].Decided? && log[..j][k].outcome == log[j].outcome;
    var c :| 0 <= c < j && log[..j][c].PipesClosed?;
    assert log[c].PipesClosed?;
    forall i | 0 <= i < |log| && log[i].Decided? ensures i == k {
      NoneBefore(log, k);
      NoneBefore(log, i);
    }
  }

  lemma NoneBefore(log: seq<Entry>, j: nat)
    requires ResultsDecided(log) && j < |log| && log[j].Decided?
    ensures forall i :: 0 <= i < j ==> !log[i].Decided?
  {
    assert MayFollow(log[..j], log[j]);
    assert forall i :: 0 <= i < j ==> log[..j][i] == log[i];
  }

  /** A ladder that ends in a timeout began no earlier than the timeout, and so did any timeout decided. */
  ghost predicate PatientInv(s: State) { WaiterPatient(s) && NoEarlyTimeout(s.log, s.timeout) }

  ghost predicate WaiterPatient(s: State) {
    && (s.waiter.Polling? || s.waiter.Selecting? ==> s.waiter.deadline >= s.timeout)
    && (s.waiter.WaiterTermed? || s.waiter.InGrace? || s.waiter.AwaitDeath? ==> s.waiter.outcome.TimedOut? ==> s.now >= s.timeout)
  }

  lemma StepIsPatient(s: State, a: Action, s': State)
    requires PatientInv(s) && Step(s, a) == Some(s')
    ensures PatientInv(s') && s'.timeout == s.timeout
  {
    WaiterIsPatient(s, a, s');
    if Deciding(a) { DecidesPatiently(s, a, s'); } else { NotesPatiently(s, a, s'); }
  }

  lemma WaiterIsPatient(s: State, a: Action, s': State)
    requires WaiterPatient(s) && Step(s, a) == Some(s')
    ensures WaiterPatient(s') && s'.timeout == s.timeout
  {
    if ByLadder(a) { LadderIsPatient(s, a, s'); }
    else if a.TryWait? || a.BeginWait? || a.PollAgain? { PollIsPatient(s, a, s'); }
    else { assert s'.waiter == s.waiter || Settled(s'.waiter); }
  }

  lemma LadderIsPatient(s: State, a: Action, s': State)
    requires WaiterPatient(s) && Step(s, a) == Some(s') && ByLadder(a)
    ensures WaiterPatient(s') && s'.timeout == s.timeout
  {
  }

  lemma PollIsPatient(s: State, a: Action, s': State)
    requires WaiterPatient(s) && Step(s, a) == Some(s') && (a.TryWait? || a.BeginWait? || a.PollAgain?)
    ensures WaiterPatient(s') && s'.timeout == s.timeout
  {
  }

  lemma DecidesPatiently(s: State, a: Action, s': State)
    requires PatientInv(s) && Step(s, a) == Some(s') && Deciding(a)
    ensures NoEarlyTimeout(s'.log, s.timeout)
  {
    if a.CheckToken? {
      Patiently(s.log, Decided(if s.fired then Cancelled else Exit(s.waiter.code), s.now), s.timeout);
    } else {
      Patiently(s.log, Reaped(s.now), s.timeout);
      Patiently(Reap(s).log, Decided(if a.TryWaitFails? then AlreadyReaped else s.waiter.outcome, s.now), s.timeout);
    }
  }

  lemma NotesPatiently(s: State, a: Action, s': State)
    requires NoEarlyTimeout(s.log, s.timeout) && Step(s, a) == Some(s') && !Deciding(a)
    ensures NoEarlyTimeout(s'.log, s.timeout)
  {
    if a.DropHandle? {
      var killed := if s.flag then s else Send(s, Kill, DropGuard);
      Patiently(s.log, Sent(Kill, DropGuard, s.now), s.timeout);
      Patiently(killed.log, Dropped(s.now), s.timeout);
    } else if a.ClosePipes? {
      Patiently(s.log, PipesClosed(s.now), s.timeout);
    } else if a.HandOver? {
      Patiently(s.log, Returned(s.waiter.outcome, s.now), s.timeout);
    } else {
      QuietStepNotes(s, a, s');
      Patiently(s.log, Note(s, a), s.timeout);
    }
  }

  lemma Patiently(log: seq<Entry>, e: Entry, timeout: nat)
    requires NoEarlyTimeout(log, timeout) && (e.Decided? && e.outcome.TimedOut? ==> e.at >= timeout)
    ensures NoEarlyTimeout(log + [e], timeout)
  {
  }

  ghost predicate NoEarlyTimeout(log: seq<Entry>, timeout: nat) {
    forall i :: 0 <= i < |log| && log[i].Decided? && log[i].outcome.TimedOut? ==> log[i].at >= timeout
  }

  lemma {:induction false} RunIsPatient(s: State, schedule: seq<Action>)
    requires PatientInv(s)
    ensures PatientInv(Run(s, schedule)) && Run(s, schedule).timeout == s.timeout
  {
    if schedule != [] {
      var before := schedule[..|schedule| - 1];
      RunIsPatient(s, before);
      match Step(Run(s, before), schedule[|schedule| - 1])
      case None =>
      case Some(s') => StepIsPatient(Run(s, before), schedule[|schedule| - 1], s');
    }
  }

  /** A timeout is reported only once the timeout has passed. */
  lemma TimeoutNotBeforeItsTime(timeout: nat, hasToken: bool, schedule: seq<Action>, j: nat)
    requires var log := Run(Init(timeout, hasToken), schedule).log; j < |log| && log[j].Returned? && log[j].outcome.TimedOut?
    ensures Run(Init(timeout, hasToken), schedule).log[j].at >= timeout
  {
    RunIsPatient(Init(timeout, hasToken), schedule);
    RunKeepsTime(timeout, hasToken, schedule);
    var k := ResultWasDecided(timeout, hasToken, schedule, j);
  }
}
