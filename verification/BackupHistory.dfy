/**
 * Writers of one file that take turns: a writer starts only when every earlier one has succeeded, failed or
 * died in a crash. Each directory, the current one and those a crash may bring back, then has a history: the
 * files its target has been in turn. The backup trails the target by at most one version.
 */
module BackupHistory {
  import opened Common
  import opened AtomicFile

  /**
   * What led to a directory: the versions of the target, and which of them the backup is a copy of, once a writer
   * made one.
   */
  datatype Line = Line(versions: seq<Version>, saved: Option<nat>)

  /** A file the target has been, and its writer; there is none for the file of the start. */
  datatype Version = Version(ino: nat, maker: Option<nat>)

  predicate Idle(p: Phase) { p.Succeeded? || p.Failed? || p.Crashed? }

  predicate AllIdle(s: State) { forall w :: 0 <= w < |s.writers| ==> Idle(s.writers[w].phase) }

  /** No writer starts while another is at work. */
  predicate TakeTurns(init: State, schedule: seq<Action>)
    requires WellFormed(init)
  {
    schedule != [] ==>
      var before := schedule[..|schedule| - 1];
      TakeTurns(init, before) && (schedule[|schedule| - 1].Start? ==> AllIdle(Run(init, before)))
  }

  /** The history after a step of a writer: a rename adds a version of the target, or a backup of the last one. */
  function Follow(s: State, a: Action, l: Line): Line {
    if a.Rename? && a.w < |s.writers| && s.writers[a.w].phase.Renaming? then
      var p := s.writers[a.w].phase;
      if p.job.Replace? then l.(versions := l.versions + [Version(p.ino, Some(a.w))])
      else if l.versions == [] then l
      else l.(saved := Some(|l.versions| - 1))
    else l
  }

  /** The histories of the directories after a step. */
  function StepLines(s: State, a: Action, s': State, lines: seq<Line>): seq<Line>
    requires |lines| == |s.dirs| > 0
  {
    if a.Crash? then (if a.back < |lines| then [lines[a.back]] else lines)
    else if |s'.dirs| == |s.dirs| then lines
    else lines + [Follow(s, a, lines[|lines| - 1])]
  }

  /** The version the target is at the start, if it is there. */
  function First(init: State): seq<Version>
    requires WellFormed(init)
  {
    if init.target in Cur(init) then [Version(Cur(init)[init.target], None)] else []
  }

  /** The history of each directory after a run, from its start. */
  function Lines(init: State, schedule: seq<Action>): (lines: seq<Line>)
    requires Initial(init)
    ensures |lines| == |Run(init, schedule).dirs|
  {
    if schedule == [] then [Line(First(init), None)]
    else
      var before, a := Run(init, schedule[..|schedule| - 1]), schedule[|schedule| - 1];
      var lines := Lines(init, schedule[..|schedule| - 1]);
      match Step(before, a)
      case None => lines
      case Some(s') => StepLines(before, a, s', lines)
  }

  ghost predicate Durable(s: State, ino: nat) { ino < |s.inodes| && s.inodes[ino].synced }

  /** The file of the start, or one with the bytes of a writer among the first `m`. */
  ghost predicate VersionOk(init: State, s: State, v: Version, m: nat)
    requires Initial(init)
  {
    && Durable(s, v.ino)
    && match v.maker
       case None => [v] == First(init)
       case Some(w) => w < m <= |s.writers| && s.inodes[v.ino].data == s.writers[w].bytes
  }

  /** `w` comes after `v`: a later writer made it. */
  predicate Later(v: Version, w: Version) { w.maker.Some? && (v.maker.Some? ==> v.maker.value < w.maker.value) }

  /** The versions, in the order of their writers; at most the first is the file of the start, and that is never lost. */
  ghost predicate VersionsOk(init: State, s: State, versions: seq<Version>, m: nat)
    requires Initial(init)
  {
    && |versions| <= m + 1 && First(init) <= versions
    && (forall i :: 0 <= i < |versions| ==> VersionOk(init, s, versions[i], m))
    && (forall i, j :: 0 <= i < j < |versions| ==> Later(versions[i], versions[j]))
  }

  /** Another writer started after the one that made the version. */
  predicate MadeBefore(v: Version, writers: nat) { v.maker.Some? ==> v.maker.value + 1 < writers }

  /** The backup: as at the start before anything is backed up, then a copy, by a later writer, of the last version or the one before. */
  ghost predicate SavedOk(init: State, s: State, l: Line, d: Dir)
    requires Initial(init)
  {
    var bak := BakName(init.target);
    match l.saved
    case None => |l.versions| <= 1 && (bak in d <==> bak in Cur(init)) && (bak in d ==> d[bak] == Cur(init)[bak])
    case Some(v) =>
      && v < |l.versions| <= v + 2 && MadeBefore(l.versions[v], |s.writers|)
      && bak in d && Durable(s, d[bak]) && Durable(s, l.versions[v].ino)
      && s.inodes[d[bak]].data == s.inodes[l.versions[v].ino].data
  }

  ghost predicate LineOk(init: State, s: State, l: Line, d: Dir, m: nat)
    requires Initial(init)
  {
    && VersionsOk(init, s, l.versions, m) && SavedOk(init, s, l, d)
    && (init.target in d <==> l.versions != []) && (l.versions != [] ==> d[init.target] == l.versions[|l.versions| - 1].ino)
  }

  /** The writer at work copies the last version, or has done so. */
  ghost predicate AtWork(l: Line, p: Phase) {
    HasJob(p) ==>
      if p.job.Replace? then l.versions == [] || l.saved == Some(|l.versions| - 1)
      else l.versions != [] && p.job.src == l.versions[|l.versions| - 1].ino
  }

  /** Whether a history fits a directory, when only the first so many writers may have contributed. */
  type Fit = (Line, Dir, nat) -> bool

  ghost function FitOf(init: State, s: State): Fit
    requires Initial(init)
  {
    (l: Line, d: Dir, m: nat) => LineOk(init, s, l, d, m)
  }

  /** Every directory has a fitting history. Only the last writer may be at work; it has not replaced the target yet. */
  ghost predicate Turns(s: State, lines: seq<Line>, fit: Fit) {
    && |lines| == |s.dirs| > 0
    && (forall k :: 0 <= k < |s.dirs| ==> fit(lines[k], s.dirs[k], |s.writers|))
    && (forall w :: 0 <= w < |s.writers| - 1 ==> Idle(s.writers[w].phase))
    && (s.writers != [] ==> AtTurn(s, lines[|lines| - 1], s.writers[|s.writers| - 1].phase, fit))
  }

  ghost predicate AtTurn(s: State, l: Line, p: Phase, fit: Fit)
    requires WellFormed(s) && s.writers != []
  {
    !Idle(p) ==> AtWork(l, p) && fit(l, Cur(s), |s.writers| - 1)
  }

  ghost predicate TurnInv(init: State, s: State, lines: seq<Line>)
    requires Initial(init)
  {
    Turns(s, lines, FitOf(init, s))
  }

  // ---- what a step leaves alone ----

  lemma LineStays(init: State, s: State, s': State, l: Line, d: Dir, m: nat, m': nat)
    requires Initial(init) && Extends(s, s') && m <= m' <= |s'.writers|
    requires LineOk(init, s, l, d, m)
    ensures LineOk(init, s', l, d, m')
  {
  }

  /** A directory that agrees with another at the target and at the backup has the same history. */
  lemma SameTwoNames(init: State, s: State, l: Line, d: Dir, d': Dir, m: nat)
    requires Initial(init) && LineOk(init, s, l, d, m)
    requires forall n :: n == init.target || n == BakName(init.target) ==> (n in d' <==> n in d) && (n in d' ==> d'[n] == d[n])
    ensures LineOk(init, s, l, d', m)
  {
  }

  /** What fits goes on to fit. */
  ghost predicate FitStays(fit: Fit, fit': Fit, most: nat) {
    forall l, d, m: nat, m': nat {:trigger fit(l, d, m), fit'(l, d, m')} :: fit(l, d, m) && m <= m' <= most ==> fit'(l, d, m')
  }

  lemma FitsStay(init: State, s: State, s': State)
    requires Initial(init) && Extends(s, s')
    ensures FitStays(FitOf(init, s), FitOf(init, s'), |s'.writers|)
  {
    forall l, d, m: nat, m': nat | LineOk(init, s, l, d, m) && m <= m' <= |s'.writers| ensures LineOk(init, s', l, d, m') {
      LineStays(init, s, s', l, d, m, m');
    }
  }

  /** No step takes files or writers away, nor changes a synced file. */
  lemma StepExtends(init: State, s: State, a: Action)
    requires Inv(init, s) && Step(s, a).Some?
    ensures Extends(s, Step(s, a).value)
  {
    if (a.Write? || a.Sync?) && s.writers[a.w].phase.Writing? { assert WriterOk(init, s, a.w); }
  }

  // ---- steps ----

  /** Only the last writer moves. */
  ghost predicate LastMoves(s: State, s': State) {
    && |s'.writers| == |s.writers| > 0
    && forall w :: 0 <= w < |s.writers| - 1 ==> s'.writers[w].phase == s.writers[w].phase
  }

  /** The step of the writer at work; no new directory. */
  lemma QuietTurns(s: State, s': State, lines: seq<Line>, fit: Fit, fit': Fit)
    requires Turns(s, lines, fit) && FitStays(fit, fit', |s'.writers|) && s'.dirs == s.dirs && LastMoves(s, s')
    requires var p, p' := s.writers[|s.writers| - 1].phase, s'.writers[|s.writers| - 1].phase;
      !Idle(p') ==> !Idle(p) && AtWork(lines[|lines| - 1], p')
    ensures Turns(s', lines, fit')
  {
  }

  /** The step of the writer at work that makes a new directory `d` with history `l`. */
  lemma NewDirTurns(s: State, s': State, lines: seq<Line>, d: Dir, l: Line, fit: Fit, fit': Fit)
    requires Turns(s, lines, fit) && FitStays(fit, fit', |s'.writers|) && s'.dirs == s.dirs + [d] && LastMoves(s, s')
    requires fit'(l, d, |s'.writers|)
    requires AtTurn(s', l, s'.writers[|s.writers| - 1].phase, fit')
    ensures Turns(s', lines + [l], fit')
  {
  }

  lemma StartTurns(s: State, s': State, lines: seq<Line>, fit: Fit, fit': Fit)
    requires Turns(s, lines, fit) && FitStays(fit, fit', |s'.writers|) && s'.dirs == s.dirs && AllIdle(s)
    requires |s'.writers| == |s.writers| + 1 && s'.writers[..|s.writers|] == s.writers && s'.writers[|s.writers|].phase.Checking?
    ensures Turns(s', lines, fit')
  {
    forall w | 0 <= w < |s.writers| ensures Idle(s'.writers[w].phase) { assert s'.writers[..|s.writers|][w] == s.writers[w]; }
    assert fit(lines[|lines| - 1], Cur(s), |s.writers|);
  }

  lemma CrashTurns(s: State, s': State, lines: seq<Line>, back: nat, fit: Fit, fit': Fit)
    requires Turns(s, lines, fit) && FitStays(fit, fit', |s'.writers|) && back < |s.dirs| && s'.dirs == [s.dirs[back]]
    requires |s'.writers| == |s.writers| && AllIdle(s')
    ensures Turns(s', [lines[back]], fit')
  {
    assert fit(lines[back], s.dirs[back], |s.writers|);
  }

  lemma QuietStep(init: State, s: State, s': State, lines: seq<Line>)
    requires Initial(init) && TurnInv(init, s, lines) && Extends(s, s') && s'.dirs == s.dirs && LastMoves(s, s')
    requires var p, p' := s.writers[|s.writers| - 1].phase, s'.writers[|s.writers| - 1].phase;
      !Idle(p') ==> !Idle(p) && AtWork(lines[|lines| - 1], p')
    ensures TurnInv(init, s', lines)
  {
    FitsStay(init, s, s');
    QuietTurns(s, s', lines, FitOf(init, s), FitOf(init, s'));
  }

  /** The fit of the last directory is kept by one that agrees with it at the target and at the backup. */
  lemma SameFit(init: State, s: State, s': State, l: Line, d: Dir, d': Dir, m: nat)
    requires Initial(init) && Extends(s, s') && m < |s'.writers| && FitOf(init, s)(l, d, m)
    requires forall n :: n == init.target || n == BakName(init.target) ==> (n in d' <==> n in d) && (n in d' ==> d'[n] == d[n])
    ensures FitOf(init, s')(l, d', m) && FitOf(init, s')(l, d', m + 1)
  {
    LineStays(init, s, s', l, d, m, m);
    LineStays(init, s, s', l, d, m, m + 1);
    SameTwoNames(init, s', l, d, d', m);
    SameTwoNames(init, s', l, d, d', m + 1);
  }

  /** The writer goes on with its job, or ends, in a new directory that the same history fits. */
  lemma SameLineTurns(s: State, s': State, lines: seq<Line>, d: Dir, fit: Fit, fit': Fit)
    requires Turns(s, lines, fit) && FitStays(fit, fit', |s'.writers|) && s'.dirs == s.dirs + [d] && LastMoves(s, s')
    requires var l := lines[|lines| - 1]; fit'(l, d, |s.writers| - 1) && fit'(l, d, |s.writers|)
    requires var p, p' := s.writers[|s.writers| - 1].phase, s'.writers[|s.writers| - 1].phase;
      HasJob(p) && (HasJob(p') ==> p'.job == p.job) && !p'.Checking? && !p'.Opening?
    ensures Turns(s', lines + [lines[|lines| - 1]], fit')
  {
    NewDirTurns(s, s', lines, d, lines[|lines| - 1], fit, fit');
  }

  /** Creating or removing a temporary file touches neither the target nor the backup. */
  lemma TempStep(init: State, s: State, s': State, lines: seq<Line>, d: Dir)
    requires Inv(init, s) && TurnInv(init, s, lines) && Extends(s, s') && s'.dirs == s.dirs + [d]
    requires LastMoves(s, s')
    requires forall n :: n == init.target || n == BakName(init.target) ==> (n in d <==> n in Cur(s)) && (n in d ==> d[n] == Cur(s)[n])
    requires var p, p' := s.writers[|s.writers| - 1].phase, s'.writers[|s.writers| - 1].phase;
      HasJob(p) && (HasJob(p') ==> p'.job == p.job) && !p'.Checking? && !p'.Opening?
    ensures TurnInv(init, s', lines + [lines[|lines| - 1]])
  {
    var l, m := lines[|lines| - 1], |s.writers|;
    FitsStay(init, s, s');
    SameFit(init, s, s', l, Cur(s), d, m - 1);
    SameLineTurns(s, s', lines, d, FitOf(init, s), FitOf(init, s'));
  }

  /** The backup takes its place: a copy of the last version. */
  lemma BackupRenamed(init: State, s: State, s': State, l: Line, tmp: string, ino: nat, m: nat)
    requires Initial(init) && WellFormed(s) && LineOk(init, s, l, Cur(s), m) && m < |s.writers|
    requires s'.inodes == s.inodes && |s'.writers| == |s.writers| && forall w :: 0 <= w < |s.writers| ==> s'.writers[w].bytes == s.writers[w].bytes
    requires tmp in Cur(s) && Cur(s)[tmp] == ino && tmp != init.target && tmp != BakName(init.target)
    requires Durable(s, ino) && l.versions != [] && s.inodes[ino].data == s.inodes[l.versions[|l.versions| - 1].ino].data
    ensures LineOk(init, s', l.(saved := Some(|l.versions| - 1)), AfterRename(Cur(s), tmp, BakName(init.target)), m)
  {
    BakIsNotTarget(init.target);
  }

  /** The target is replaced, and the backup is a copy of what it was. */
  lemma TargetRenamed(init: State, s: State, s': State, l: Line, tmp: string, ino: nat, m: nat)
    requires Initial(init) && WellFormed(s) && LineOk(init, s, l, Cur(s), m) && m < |s.writers|
    requires s'.inodes == s.inodes && |s'.writers| == |s.writers| && forall w :: 0 <= w < |s.writers| ==> s'.writers[w].bytes == s.writers[w].bytes
    requires tmp in Cur(s) && Cur(s)[tmp] == ino && tmp != init.target && tmp != BakName(init.target)
    requires Durable(s, ino) && s.inodes[ino].data == s.writers[m].bytes && (l.versions == [] || l.saved == Some(|l.versions| - 1))
    ensures LineOk(init, s', l.(versions := l.versions + [Version(ino, Some(m))]), AfterRename(Cur(s), tmp, init.target), m + 1)
  {
    BakIsNotTarget(init.target);
  }

  /** What the writer's own steps leave alone. */
  lemma OwnStep(s: State, a: Action, s': State)
    requires WellFormed(s) && Step(s, a) == Some(s') && !a.Start? && !a.Crash?
    ensures a.w < |s.writers| == |s'.writers| && s'.target == s.target
    ensures forall v :: 0 <= v < |s.writers| && v != a.w ==> s'.writers[v] == s.writers[v]
    ensures s'.writers[a.w].bytes == s.writers[a.w].bytes
    ensures Idle(s.writers[a.w].phase) ==> a.Fail? && Idle(s'.writers[a.w].phase)
  {
  }

  /** Only the last writer can be at work. */
  lemma LastWorks(s: State, a: Action, lines: seq<Line>, fit: Fit)
    requires Turns(s, lines, fit) && Step(s, a).Some? && !a.Start? && !a.Crash? && !a.Fail?
    ensures a.w == |s.writers| - 1 && s.writers != [] && !Idle(s.writers[a.w].phase)
    ensures AtWork(lines[|lines| - 1], s.writers[a.w].phase) && fit(lines[|lines| - 1], Cur(s), |s.writers| - 1)
    ensures LastMoves(s, Step(s, a).value)
  {
    OwnStep(s, a, Step(s, a).value);
  }

  lemma RenameMoves(s: State, a: Action, s': State)
    requires WellFormed(s) && Step(s, a) == Some(s') && a.Rename?
    ensures a.w < |s.writers| == |s'.writers| && s.writers[a.w].phase.Renaming?
    ensures |s'.dirs| == |s.dirs| + 1 && s'.dirs == s.dirs + [Cur(s')] && s'.writers[a.w].phase == Next(s.writers[a.w].phase.job)
  {
  }

  /** A rename puts a whole, synced file at its goal. */
  lemma RenameShape(init: State, s: State, a: Action)
    requires Inv(init, s) && Step(s, a).Some? && a.Rename?
    ensures a.w < |s.writers| && s.writers[a.w].phase.Renaming?
    ensures var p, s' := s.writers[a.w].phase, Step(s, a).value;
      && p.tmp in Cur(s) && Cur(s)[p.tmp] == p.ino && p.tmp != s.target && p.tmp != BakName(s.target)
      && p.ino < |s.inodes| && s.inodes[p.ino] == Inode(Payload(s, a.w, p.job), true)
      && s'.dirs == s.dirs + [AfterRename(Cur(s), p.tmp, Goal(s.target, p.job))] && s'.inodes == s.inodes
      && s'.writers[a.w].phase == Next(p.job)
  {
    assert WriterOk(init, s, a.w);
  }

  lemma TargetLine(init: State, s: State, a: Action, l: Line)
    requires Inv(init, s) && Step(s, a).Some? && a.Rename? && a.w == |s.writers| - 1
    requires s.writers[a.w].phase.job.Replace? && AtWork(l, s.writers[a.w].phase) && FitOf(init, s)(l, Cur(s), a.w)
    ensures var s', p := Step(s, a).value, s.writers[a.w].phase;
      p.Renaming? && FitOf(init, s')(l.(versions := l.versions + [Version(p.ino, Some(a.w))]), Cur(s'), a.w + 1)
  {
    var p, s' := s.writers[a.w].phase, Step(s, a).value;
    OwnStep(s, a, s');
    RenameShape(init, s, a);
    TargetRenamed(init, s, s', l, p.tmp, p.ino, a.w);
  }

  /** What the target's rename makes of the histories, given that the new one fits. */
  lemma TargetTurnsOf(s: State, a: Action, s': State, lines: seq<Line>, l': Line, fit: Fit, fit': Fit)
    requires Turns(s, lines, fit) && Step(s, a) == Some(s') && a.Rename? && s.writers[a.w].phase.job.Replace?
    requires FitStays(fit, fit', |s'.writers|) && l' == Follow(s, a, lines[|lines| - 1]) && fit'(l', Cur(s'), |s.writers|)
    ensures Turns(s', lines + [l'], fit')
  {
    LastWorks(s, a, lines, fit);
    RenameMoves(s, a, s');
    NewDirTurns(s, s', lines, Cur(s'), l', fit, fit');
  }

  lemma TargetTurn(init: State, s: State, a: Action, lines: seq<Line>)
    requires Inv(init, s) && TurnInv(init, s, lines)
    requires Step(s, a).Some? && a.Rename? && s.writers[a.w].phase.job.Replace?
    ensures TurnInv(init, Step(s, a).value, lines + [Follow(s, a, lines[|lines| - 1])])
  {
    var s', l, fit := Step(s, a).value, lines[|lines| - 1], FitOf(init, s);
    LastWorks(s, a, lines, fit);
    StepExtends(init, s, a);
    FitsStay(init, s, s');
    TargetLine(init, s, a, l);
    TargetTurnsOf(s, a, s', lines, Follow(s, a, l), fit, FitOf(init, s'));
  }

  lemma FollowBackup(s: State, a: Action, l: Line)
    requires a.Rename? && a.w < |s.writers| && s.writers[a.w].phase.Renaming? && s.writers[a.w].phase.job.Backup? && l.versions != []
    ensures Follow(s, a, l) == l.(saved := Some(|l.versions| - 1))
  {
  }

  lemma BackupLine(init: State, s: State, a: Action, l: Line)
    requires Inv(init, s) && Step(s, a).Some? && a.Rename? && a.w == |s.writers| - 1
    requires s.writers[a.w].phase.job.Backup? && AtWork(l, s.writers[a.w].phase) && FitOf(init, s)(l, Cur(s), a.w)
    ensures l.versions != []
    ensures var s', l' := Step(s, a).value, l.(saved := Some(|l.versions| - 1));
      FitOf(init, s')(l', Cur(s'), a.w) && FitOf(init, s')(l', Cur(s'), a.w + 1)
  {
    var p, s', l' := s.writers[a.w].phase, Step(s, a).value, l.(saved := Some(|l.versions| - 1));
    OwnStep(s, a, s');
    RenameShape(init, s, a);
    BackupRenamed(init, s, s', l, p.tmp, p.ino, a.w);
    LineStays(init, s', s', l', Cur(s'), a.w, a.w + 1);
  }

  lemma BackupTurns(s: State, s': State, lines: seq<Line>, d: Dir, l: Line, fit: Fit, fit': Fit)
    requires Turns(s, lines, fit) && FitStays(fit, fit', |s'.writers|) && s'.dirs == s.dirs + [d] && LastMoves(s, s')
    requires s'.writers[|s.writers| - 1].phase == Creating(Replace, 0) && l.saved == Some(|l.versions| - 1)
    requires fit'(l, d, |s.writers| - 1) && fit'(l, d, |s.writers|)
    ensures Turns(s', lines + [l], fit')
  {
    NewDirTurns(s, s', lines, d, l, fit, fit');
  }

  /** What a backup's rename makes of the histories, given that the new one fits. */
  lemma BackupTurnsOf(s: State, a: Action, s': State, lines: seq<Line>, l: Line, fit: Fit, fit': Fit)
    requires Turns(s, lines, fit) && Step(s, a) == Some(s') && a.Rename? && s.writers[a.w].phase.job.Backup?
    requires FitStays(fit, fit', |s'.writers|) && l == lines[|lines| - 1] && l.versions != []
    requires var l' := l.(saved := Some(|l.versions| - 1)); fit'(l', Cur(s'), |s.writers| - 1) && fit'(l', Cur(s'), |s.writers|)
    ensures Turns(s', lines + [Follow(s, a, l)], fit')
  {
    LastWorks(s, a, lines, fit);
    RenameMoves(s, a, s');
    FollowBackup(s, a, l);
    BackupTurns(s, s', lines, Cur(s'), l.(saved := Some(|l.versions| - 1)), fit, fit');
  }

  lemma BackupTurn(init: State, s: State, a: Action, lines: seq<Line>)
    requires Inv(init, s) && TurnInv(init, s, lines)
    requires Step(s, a).Some? && a.Rename? && s.writers[a.w].phase.job.Backup?
    ensures TurnInv(init, Step(s, a).value, lines + [Follow(s, a, lines[|lines| - 1])])
  {
    var s', l, fit := Step(s, a).value, lines[|lines| - 1], FitOf(init, s);
    LastWorks(s, a, lines, fit);
    StepExtends(init, s, a);
    FitsStay(init, s, s');
    BackupLine(init, s, a, l);
    BackupTurnsOf(s, a, s', lines, l, fit, FitOf(init, s'));
  }

  lemma RenameTurn(init: State, s: State, a: Action, lines: seq<Line>)
    requires Inv(init, s) && TurnInv(init, s, lines) && Step(s, a).Some? && a.Rename?
    ensures var s' := Step(s, a).value; TurnInv(init, s', StepLines(s, a, s', lines))
  {
    RenameMoves(s, a, Step(s, a).value);
    if s.writers[a.w].phase.job.Replace? { TargetTurn(init, s, a, lines); } else { BackupTurn(init, s, a, lines); }
  }

  lemma CreateTurn(init: State, s: State, a: Action, lines: seq<Line>)
    requires Inv(init, s) && TurnInv(init, s, lines)
    requires Step(s, a).Some? && a.Create?
    ensures var s' := Step(s, a).value; TurnInv(init, s', StepLines(s, a, s', lines))
  {
    LastWorks(s, a, lines, FitOf(init, s));
    var job, s' := s.writers[a.w].phase.job, Step(s, a).value;
    var name := TmpSibling(Goal(s.target, job), a.pid, a.counter);
    TempNameIsNeither(s.target, job, a.pid, a.counter);
    StepExtends(init, s, a);
    if name in Cur(s) { QuietStep(init, s, s', lines); }
    else { TempStep(init, s, s', lines, Cur(s)[name := |s.inodes|]); }
  }

  /** A removal takes away the temporary name and nothing else. */
  lemma RemoveShape(init: State, s: State, a: Action)
    requires Inv(init, s) && Step(s, a).Some? && a.Remove?
    ensures a.w < |s.writers| && s.writers[a.w].phase.Removing?
    ensures var tmp, s' := s.writers[a.w].phase.tmp, Step(s, a).value;
      && tmp != s.target && tmp != BakName(s.target)
      && s'.dirs == s.dirs + [AfterRemove(Cur(s), tmp)] && s'.writers[a.w].phase == Failed
  {
    assert WriterOk(init, s, a.w);
  }

  lemma RemoveTurn(init: State, s: State, a: Action, lines: seq<Line>)
    requires Inv(init, s) && TurnInv(init, s, lines)
    requires Step(s, a).Some? && a.Remove?
    ensures var s' := Step(s, a).value; TurnInv(init, s', StepLines(s, a, s', lines))
  {
    LastWorks(s, a, lines, FitOf(init, s));
    StepExtends(init, s, a);
    RemoveShape(init, s, a);
    TempStep(init, s, Step(s, a).value, lines, AfterRemove(Cur(s), s.writers[a.w].phase.tmp));
  }

  lemma StartTurn(init: State, s: State, lines: seq<Line>, bytes: Bytes)
    requires Inv(init, s) && TurnInv(init, s, lines) && AllIdle(s)
    ensures TurnInv(init, Step(s, Start(bytes)).value, lines)
  {
    var s' := Step(s, Start(bytes)).value;
    FitsStay(init, s, s');
    StartTurns(s, s', lines, FitOf(init, s), FitOf(init, s'));
  }

  lemma CrashTurn(init: State, s: State, lines: seq<Line>, back: nat, junk: seq<Bytes>)
    requires Inv(init, s) && TurnInv(init, s, lines) && back < |s.dirs|
    ensures TurnInv(init, Step(s, Crash(back, junk)).value, [lines[back]])
  {
    var s' := Step(s, Crash(back, junk)).value;
    StepExtends(init, s, Crash(back, junk));
    FitsStay(init, s, s');
    CrashTurns(s, s', lines, back, FitOf(init, s), FitOf(init, s'));
  }

  /** Checking, opening, writing, syncing and failing make no directory; a job begun is a backup of the target. */
  lemma PlainStep(s: State, a: Action, s': State)
    requires WellFormed(s) && Step(s, a) == Some(s') && PlainAction(a)
    ensures s'.dirs == s.dirs
    ensures a.w < |s.writers| == |s'.writers| && var p, p' := s.writers[a.w].phase, s'.writers[a.w].phase;
      !Idle(p') && !p'.Opening? ==>
        HasJob(p') && ((HasJob(p) && p'.job == p.job)
          || p'.job == if s.target in Cur(s) then Backup(Cur(s)[s.target]) else Replace)
  {
  }

  predicate PlainAction(a: Action) { a.Check? || a.Open? || a.Write? || a.Sync? || a.RenameFails? || a.Fail? }

  lemma FitsTarget(init: State, s: State, l: Line, d: Dir, m: nat)
    requires Initial(init) && FitOf(init, s)(l, d, m)
    ensures (init.target in d <==> l.versions != []) && (l.versions != [] ==> d[init.target] == l.versions[|l.versions| - 1].ino)
  {
  }

  lemma PlainMoves(s: State, a: Action, s': State, lines: seq<Line>, fit: Fit)
    requires Turns(s, lines, fit) && Step(s, a) == Some(s') && PlainAction(a)
    requires var l := lines[|lines| - 1];
      (s.target in Cur(s) <==> l.versions != []) && (l.versions != [] ==> Cur(s)[s.target] == l.versions[|l.versions| - 1].ino)
    ensures s'.dirs == s.dirs && LastMoves(s, s')
    ensures var p, p' := s.writers[|s.writers| - 1].phase, s'.writers[|s.writers| - 1].phase;
      !Idle(p') ==> !Idle(p) && AtWork(lines[|lines| - 1], p')
  {
    OwnStep(s, a, s');
    PlainStep(s, a, s');
    if !a.Fail? { LastWorks(s, a, lines, fit); }
  }

  lemma PlainTurn(init: State, s: State, a: Action, lines: seq<Line>)
    requires Inv(init, s) && TurnInv(init, s, lines)
    requires Step(s, a).Some? && PlainAction(a)
    ensures var s' := Step(s, a).value; TurnInv(init, s', StepLines(s, a, s', lines))
  {
    var s' := Step(s, a).value;
    StepExtends(init, s, a);
    FitsTarget(init, s, lines[|lines| - 1], Cur(s), |s.writers|);
    PlainMoves(s, a, s', lines, FitOf(init, s));
    QuietStep(init, s, s', lines);
  }

  lemma StepKeepsTurns(init: State, s: State, a: Action, lines: seq<Line>)
    requires Inv(init, s) && TurnInv(init, s, lines)
    requires Step(s, a).Some? && (a.Start? ==> AllIdle(s))
    ensures var s' := Step(s, a).value; TurnInv(init, s', StepLines(s, a, s', lines))
  {
    match a
    case Start(bytes) => StartTurn(init, s, lines, bytes);
    case Crash(back, junk) => CrashTurn(init, s, lines, back, junk);
    case Create(_, _, _) => CreateTurn(init, s, a, lines);
    case Rename(_) => RenameTurn(init, s, a, lines);
    case Remove(_) => RemoveTurn(init, s, a, lines);
    case _ => PlainTurn(init, s, a, lines);
  }

  lemma {:induction false} RunKeepsTurns(init: State, schedule: seq<Action>)
    requires Initial(init) && TakeTurns(init, schedule)
    ensures TurnInv(init, Run(init, schedule), Lines(init, schedule))
  {
    if schedule != [] {
      var before, a := Run(init, schedule[..|schedule| - 1]), schedule[|schedule| - 1];
      RunKeepsInv(init, schedule[..|schedule| - 1]);
      RunKeepsTurns(init, schedule[..|schedule| - 1]);
      if Step(before, a).Some? { StepKeepsTurns(init, before, a, Lines(init, schedule[..|schedule| - 1])); }
    }
  }

  // ---- main results ----

  /**
   * Writers that take turns, whatever fails and whenever the machine crashes: in every directory the target is the
   * last of its versions, which are the file at the start, if there was one, and then the bytes of writers in the
   * order they started; the backup is untouched before a version is backed up, and then holds the bytes of the last
   * version or of the one before it. The target is absent only before its first version. All of it is durable.
   */
  lemma BackupTrailsTarget(init: State, schedule: seq<Action>, k: nat)
    requires Initial(init) && TakeTurns(init, schedule) && k < |Run(init, schedule).dirs|
    ensures var s, l := Run(init, schedule), Lines(init, schedule)[k];
      LineOk(init, s, l, s.dirs[k], |s.writers|)
  {
    RunKeepsTurns(init, schedule);
  }

  /** One writer takes turns with nobody. */
  lemma {:induction false} OneWriterTakesTurns(init: State, schedule: seq<Action>)
    requires Initial(init) && |Run(init, schedule).writers| <= 1
    ensures TakeTurns(init, schedule)
  {
    if schedule != [] {
      var before, a := Run(init, schedule[..|schedule| - 1]), schedule[|schedule| - 1];
      RunKeepsInv(init, schedule[..|schedule| - 1]);
      if Step(before, a).Some? { StepExtends(init, before, a); }
      OneWriterTakesTurns(init, schedule[..|schedule| - 1]);
    }
  }

  lemma LineOfOneWriter(init: State, s: State, l: Line, d: Dir)
    requires Initial(init) && init.target in Cur(init) && Extends(init, s)
    requires |s.writers| <= 1 && LineOk(init, s, l, d, |s.writers|)
    ensures var first := At(init, Cur(init), init.target); At(s, d, init.target) != first ==> At(s, d, BakName(init.target)) == first
  {
    var was := l.versions[0].ino;
    assert Durable(s, was) && s.inodes[was] == init.inodes[was];
    if |l.versions| == 1 {
      assert d[init.target] == was;
    } else {
      assert l.saved == Some(0);
    }
  }

  /**
   * With one writer over an existing file, whatever fails and whenever the machine crashes: if the target holds
   * other bytes than at the start, the backup holds the old ones.
   */
  lemma NewTargetMeansOldBackup(init: State, schedule: seq<Action>, k: nat)
    requires Initial(init) && init.target in Cur(init)
    requires var s := Run(init, schedule); |s.writers| <= 1 && k < |s.dirs|
    ensures var s := Run(init, schedule); var d := s.dirs[k]; var first := At(init, Cur(init), init.target);
      At(s, d, init.target) != first ==> At(s, d, BakName(init.target)) == first
  {
    OneWriterTakesTurns(init, schedule);
    BackupTrailsTarget(init, schedule, k);
    RunKeepsInv(init, schedule);
    LineOfOneWriter(init, Run(init, schedule), Lines(init, schedule)[k], Run(init, schedule).dirs[k]);
  }

  /** With one writer and no file at the start there is nothing to back up, and the backup stays what it was. */
  lemma FirstWriterLeavesBackup(init: State, schedule: seq<Action>, k: nat)
    requires Initial(init) && init.target !in Cur(init)
    requires var s := Run(init, schedule); |s.writers| <= 1 && k < |s.dirs|
    ensures var s, bak := Run(init, schedule), BakName(init.target); At(s, s.dirs[k], bak) == At(init, Cur(init), bak)
  {
    OneWriterTakesTurns(init, schedule);
    BackupTrailsTarget(init, schedule, k);
    RunKeepsInv(init, schedule);
    UntouchedBackup(init, Run(init, schedule), Lines(init, schedule)[k], Run(init, schedule).dirs[k]);
  }

  lemma UntouchedBackup(init: State, s: State, l: Line, d: Dir)
    requires Initial(init) && init.target !in Cur(init) && Extends(init, s)
    requires |s.writers| <= 1 && LineOk(init, s, l, d, |s.writers|)
    ensures At(s, d, BakName(init.target)) == At(init, Cur(init), BakName(init.target))
  {
    assert forall i :: 0 <= i < |l.versions| ==> VersionOk(init, s, l.versions[i], |s.writers|);
  }
}
