/**
 * Crash-safe replacement of one file. Any number of writers work on the same target, each step of each of them
 * is a step of the machine, any step may fail, and a crash may come between any two steps. A crash ends every
 * writer, leaves arbitrary bytes in a file that was not synced, and may bring back any earlier state of the
 * directory, because only files are synced and not the directory.
 */
module AtomicFile {
  import opened Common
  import Decimal

  type Bytes = seq<bv8>

  type Dir = map<string, nat>

  datatype Inode = Inode(data: Bytes, synced: bool)

  /** What a temporary file will become: the backup of an open file, or the target itself. */
  datatype Job = Backup(src: nat) | Replace

  datatype Phase =
    | Checking                                              // about to ask whether the target is a file
    | Opening                                               // about to open the target for its backup
    | Creating(job: Job, tries: nat)                        // about to create a temporary file
    | Writing(job: Job, tmp: string, ino: nat, written: nat)
    | Renaming(job: Job, tmp: string, ino: nat)             // synced
    | Removing(job: Job, tmp: string, ino: nat)             // the rename failed
    | Succeeded
    | Failed
    | Crashed

  datatype Writer = Writer(bytes: Bytes, phase: Phase)

  /** The last directory is the current one; the others are what a crash may bring back. */
  datatype State = State(target: string, inodes: seq<Inode>, dirs: seq<Dir>, writers: seq<Writer>)

  datatype Action =
    | Start(bytes: Bytes)
    | Check(w: nat)
    | Open(w: nat)
    | Create(w: nat, pid: nat, counter: nat)
    | Write(w: nat, n: nat)
    | Sync(w: nat)
    | Rename(w: nat)
    | RenameFails(w: nat)
    | Remove(w: nat)
    | Fail(w: nat)
    | Crash(back: nat, junk: seq<Bytes>)

  /** How often a fresh name is tried. */
  const TRIES: nat := 16

  function TmpSibling(base: string, pid: nat, counter: nat): string {
    base + ".tmp-" + Decimal.Print(pid) + "-" + Decimal.Print(counter)
  }

  function BakName(target: string): string { target + ".bak" }

  /** The name the job's file gets in the end. */
  function Goal(target: string, job: Job): string {
    if job.Backup? then BakName(target) else target
  }

  predicate WellFormed(s: State) { |s.dirs| > 0 }

  function Cur(s: State): Dir
    requires WellFormed(s)
  {
    s.dirs[|s.dirs| - 1]
  }

  function SetPhase(s: State, w: nat, p: Phase): State
    requires w < |s.writers|
  {
    s.(writers := s.writers[w := s.writers[w].(phase := p)])
  }

  function SetDir(s: State, d: Dir): State { s.(dirs := s.dirs + [d]) }

  /** The bytes a job writes. */
  function Payload(s: State, w: nat, job: Job): Bytes
    requires w < |s.writers|
  {
    match job
    case Backup(src) => if src < |s.inodes| then s.inodes[src].data else []
    case Replace => s.writers[w].bytes
  }

  function Surviving(inodes: seq<Inode>, junk: seq<Bytes>): seq<Inode> {
    seq(|inodes|, i requires 0 <= i < |inodes| =>
      if inodes[i].synced then inodes[i] else Inode(if i < |junk| then junk[i] else [], true))
  }

  function Halted(writers: seq<Writer>): seq<Writer> {
    seq(|writers|, i requires 0 <= i < |writers| => writers[i].(phase := Crashed))
  }

  function AfterRename(d: Dir, tmp: string, goal: string): Dir
    requires tmp in d
  {
    (map n | n in d && n != tmp :: d[n])[goal := d[tmp]]
  }

  function AfterRemove(d: Dir, tmp: string): Dir { map n | n in d && n != tmp :: d[n] }

  /** What follows a finished job: after the backup the target is written. */
  function Next(job: Job): Phase {
    if job.Backup? then Creating(Replace, 0) else Succeeded
  }

  function StepCreate(s: State, w: nat, job: Job, tries: nat, name: string): State
    requires WellFormed(s) && w < |s.writers|
  {
    if name in Cur(s) then
      SetPhase(s, w, if tries + 1 < TRIES then Creating(job, tries + 1) else Failed)
    else
      var made := SetDir(s.(inodes := s.inodes + [Inode([], false)]), Cur(s)[name := |s.inodes|]);
      SetPhase(made, w, Writing(job, name, |s.inodes|, 0))
  }

  /** One step of writer `w`; `None` when it cannot take that step now. */
  function StepWriter(s: State, w: nat, a: Action): Option<State>
    requires WellFormed(s) && w < |s.writers|
  {
    var p := s.writers[w].phase;
    match a
    case Check(_) =>
      if p.Checking? then Some(SetPhase(s, w, if s.target in Cur(s) then Opening else Creating(Replace, 0))) else None
    case Open(_) =>
      if p.Opening? && s.target in Cur(s) then Some(SetPhase(s, w, Creating(Backup(Cur(s)[s.target]), 0))) else None
    case Create(_, pid, counter) =>
      if p.Creating? then Some(StepCreate(s, w, p.job, p.tries, TmpSibling(Goal(s.target, p.job), pid, counter))) else None
    case Write(_, n) =>
      if p.Writing? && p.written + n <= |Payload(s, w, p.job)| && p.ino < |s.inodes| then
        var more := s.inodes[p.ino].data + Payload(s, w, p.job)[p.written..p.written + n];
        Some(SetPhase(s.(inodes := s.inodes[p.ino := Inode(more, false)]), w, p.(written := p.written + n)))
      else None
    case Sync(_) =>
      if p.Writing? && p.written == |Payload(s, w, p.job)| && p.ino < |s.inodes| then
        Some(SetPhase(s.(inodes := s.inodes[p.ino := s.inodes[p.ino].(synced := true)]), w, Renaming(p.job, p.tmp, p.ino)))
      else None
    case Rename(_) =>
      if p.Renaming? && p.tmp in Cur(s) then
        Some(SetPhase(SetDir(s, AfterRename(Cur(s), p.tmp, Goal(s.target, p.job))), w, Next(p.job)))
      else None
    case RenameFails(_) => if p.Renaming? then Some(SetPhase(s, w, Removing(p.job, p.tmp, p.ino))) else None
    case Remove(_) => if p.Removing? then Some(SetPhase(SetDir(s, AfterRemove(Cur(s), p.tmp)), w, Failed)) else None
    case Fail(_) => if p.Succeeded? || p.Crashed? then None else Some(SetPhase(s, w, Failed))
    case _ => None
  }

  function Step(s: State, a: Action): Option<State>
    requires WellFormed(s)
  {
    match a
    case Start(bytes) => Some(s.(writers := s.writers + [Writer(bytes, Checking)]))
    case Crash(back, junk) =>
      if back < |s.dirs| then
        Some(State(s.target, Surviving(s.inodes, junk), [s.dirs[back]], Halted(s.writers)))
      else None
    case _ => if a.w < |s.writers| then StepWriter(s, a.w, a) else None
  }

  /** The state after a schedule; actions that are not possible are skipped, so every schedule is a run. */
  function Run(s: State, schedule: seq<Action>): (r: State)
    requires WellFormed(s)
    ensures WellFormed(r)
  {
    if schedule == [] then s
    else
      var before := Run(s, schedule[..|schedule| - 1]);
      match Step(before, schedule[|schedule| - 1])
      case None => before
      case Some(s') => s'
  }

  /** A start: any directory whose files are durable, no writer yet. */
  predicate Initial(s: State) {
    && |s.dirs| == 1 && s.writers == []
    && forall n :: n in s.dirs[0] ==> s.dirs[0][n] < |s.inodes| && s.inodes[s.dirs[0][n]].synced
  }

  // ---- what every run keeps ----

  /** The file at `n` in directory `d`. */
  function At(s: State, d: Dir, n: string): Option<Inode> {
    if n in d && d[n] < |s.inodes| then Some(s.inodes[d[n]]) else None
  }

  /** The whole contents of some version of the target: the first one, or what some writer was given. */
  ghost predicate IsVersion(init: State, s: State, data: Bytes)
    requires WellFormed(init)
  {
    || At(init, Cur(init), init.target) == Some(Inode(data, true))
    || exists w :: 0 <= w < |s.writers| && s.writers[w].bytes == data
  }

  ghost predicate TargetWhole(init: State, s: State, d: Dir)
    requires WellFormed(init)
  {
    init.target in d ==> d[init.target] < |s.inodes| && s.inodes[d[init.target]].synced && IsVersion(init, s, s.inodes[d[init.target]].data)
  }

  ghost predicate BakWhole(init: State, s: State, d: Dir)
    requires WellFormed(init)
  {
    var bak := BakName(init.target);
    bak in d ==>
      && d[bak] < |s.inodes| && s.inodes[d[bak]].synced
      && (IsVersion(init, s, s.inodes[d[bak]].data) || At(init, Cur(init), bak) == Some(s.inodes[d[bak]]))
  }

  /** Every other file that was there at the start is still there, as the same file. */
  ghost predicate OthersKept(init: State, d: Dir)
    requires WellFormed(init)
  {
    forall n :: n in Cur(init) && n != init.target && n != BakName(init.target) ==> n in d && d[n] == Cur(init)[n]
  }

  /** A target or a backup that was there at the start never disappears. */
  ghost predicate NeverGone(init: State, d: Dir)
    requires WellFormed(init)
  {
    && (init.target in Cur(init) ==> init.target in d)
    && (BakName(init.target) in Cur(init) ==> BakName(init.target) in d)
  }

  ghost predicate InRange(s: State, d: Dir) { forall n :: n in d ==> d[n] < |s.inodes| }

  ghost predicate DirOk(init: State, s: State, d: Dir)
    requires WellFormed(init)
  {
    InRange(s, d) && TargetWhole(init, s, d) && BakWhole(init, s, d) && OthersKept(init, d) && NeverGone(init, d)
  }

  ghost predicate DirsOk(init: State, s: State)
    requires WellFormed(init)
  {
    forall k :: 0 <= k < |s.dirs| ==> DirOk(init, s, s.dirs[k])
  }

  /** Time only adds: files and writers are never taken away, and a synced file never changes. */
  ghost predicate Extends(s: State, s': State) {
    && s'.target == s.target && |s.inodes| <= |s'.inodes| && |s.writers| <= |s'.writers|
    && (forall i :: 0 <= i < |s.inodes| && s.inodes[i].synced ==> s'.inodes[i] == s.inodes[i])
    && (forall w :: 0 <= w < |s.writers| ==> s'.writers[w].bytes == s.writers[w].bytes)
  }

  /** The writer holds a temporary file. */
  predicate Holding(p: Phase) { p.Writing? || p.Renaming? || p.Removing? }

  predicate HasJob(p: Phase) { p.Creating? || Holding(p) }

  /** The temporary name leads to the writer's own file, and is neither the target, the backup nor a name used at the start. */
  ghost predicate Owned(init: State, s: State, tmp: string, ino: nat)
    requires WellFormed(init) && WellFormed(s)
  {
    && ino < |s.inodes| && tmp in Cur(s) && Cur(s)[tmp] == ino
    && tmp != init.target && tmp != BakName(init.target) && tmp !in Cur(init)
  }

  ghost predicate JobOk(init: State, s: State, job: Job)
    requires WellFormed(init)
  {
    job.Backup? ==> job.src < |s.inodes| && s.inodes[job.src].synced && IsVersion(init, s, s.inodes[job.src].data)
  }

  ghost predicate WriterOk(init: State, s: State, w: nat)
    requires WellFormed(init) && WellFormed(s) && w < |s.writers|
  {
    var p := s.writers[w].phase;
    && (HasJob(p) ==> JobOk(init, s, p.job))
    && (Holding(p) ==> Owned(init, s, p.tmp, p.ino))
    && (p.Writing? ==>
          var payload := Payload(s, w, p.job);
          !s.inodes[p.ino].synced && p.written <= |payload| && s.inodes[p.ino].data == payload[..p.written])
    && (p.Renaming? ==> s.inodes[p.ino] == Inode(Payload(s, w, p.job), true))
  }

  ghost predicate WritersOk(init: State, s: State)
    requires WellFormed(init) && WellFormed(s)
  {
    forall w :: 0 <= w < |s.writers| ==> WriterOk(init, s, w)
  }

  predicate ApartPhases(p: Phase, q: Phase) { Holding(p) && Holding(q) ==> p.ino != q.ino }

  /** No two writers hold the same file. */
  ghost predicate Apart(s: State) {
    forall v, w :: 0 <= v < w < |s.writers| ==> ApartPhases(s.writers[v].phase, s.writers[w].phase)
  }

  ghost predicate Inv(init: State, s: State) {
    && Initial(init) && WellFormed(s) && Extends(init, s)
    && DirsOk(init, s) && WritersOk(init, s) && Apart(s)
  }

  // ---- temporary names ----

  /** A temporary name is never the target nor its backup. */
  lemma TempNameIsNeither(target: string, job: Job, pid: nat, counter: nat)
    ensures var n := TmpSibling(Goal(target, job), pid, counter); n != target && n != BakName(target)
  {
    var n := TmpSibling(Goal(target, job), pid, counter);
    if job.Replace? {
      assert n[|target| + 1] == 't';
      assert BakName(target)[|target| + 1] == 'b';
    } else {
      assert |n| > |BakName(target)|;
    }
  }

  /** Different processes and different counter values give different names. */
  lemma TempNamesDiffer(base: string, pid: nat, counter: nat, pid': nat, counter': nat)
    requires TmpSibling(base, pid, counter) == TmpSibling(base, pid', counter')
    ensures pid == pid' && counter == counter'
  {
    var a, b := Decimal.Print(pid) + "-" + Decimal.Print(counter), Decimal.Print(pid') + "-" + Decimal.Print(counter');
    assert TmpSibling(base, pid, counter) == base + ".tmp-" + a && TmpSibling(base, pid', counter') == base + ".tmp-" + b;
    assert a == (base + ".tmp-" + a)[|base| + 5..] && b == (base + ".tmp-" + b)[|base| + 5..];
    CutAtDash(Decimal.Print(pid), Decimal.Print(counter), Decimal.Print(pid'), Decimal.Print(counter'));
    Decimal.ValueOfPrint(pid);
    Decimal.ValueOfPrint(pid');
    Decimal.ValueOfPrint(counter);
    Decimal.ValueOfPrint(counter');
  }

  lemma FirstDash(a: string, b: string)
    requires '-' !in a
    ensures var s := a + "-" + b; s[|a|] == '-' && forall k :: 0 <= k < |a| ==> s[k] != '-'
  {
    assert forall k :: 0 <= k < |a| ==> (a + "-" + b)[k] == a[k];
  }

  lemma CutAtDash(a: string, b: string, a': string, b': string)
    requires '-' !in a && '-' !in a' && a + "-" + b == a' + "-" + b'
    ensures a == a' && b == b'
  {
    var s, t := a + "-" + b, a' + "-" + b';
    FirstDash(a, b);
    FirstDash(a', b');
    assert s[..|a|] == a && t[..|a'|] == a' && s[|a| + 1..] == b && t[|a'| + 1..] == b';
  }

  // ---- what a step leaves alone ----

  lemma VersionStays(init: State, s: State, s': State, data: Bytes)
    requires WellFormed(init) && Extends(s, s') && IsVersion(init, s, data)
    ensures IsVersion(init, s', data)
  {
    if w :| 0 <= w < |s.writers| && s.writers[w].bytes == data {
      assert s'.writers[w].bytes == data;
    }
  }

  lemma DirStays(init: State, s: State, s': State, d: Dir)
    requires WellFormed(init) && Extends(s, s') && DirOk(init, s, d)
    ensures DirOk(init, s', d)
  {
    var bak := BakName(init.target);
    if init.target in d { VersionStays(init, s, s', s.inodes[d[init.target]].data); }
    if bak in d && IsVersion(init, s, s.inodes[d[bak]].data) { VersionStays(init, s, s', s.inodes[d[bak]].data); }
  }

  lemma DirsStay(init: State, s: State, s': State)
    requires WellFormed(init) && Extends(s, s') && DirsOk(init, s)
    requires forall k :: 0 <= k < |s'.dirs| ==> s'.dirs[k] in s.dirs || DirOk(init, s', s'.dirs[k])
    ensures DirsOk(init, s')
  {
    forall k | 0 <= k < |s'.dirs| ensures DirOk(init, s', s'.dirs[k]) {
      if s'.dirs[k] in s.dirs {
        var j :| 0 <= j < |s.dirs| && s.dirs[j] == s'.dirs[k];
        DirStays(init, s, s', s.dirs[j]);
      }
    }
  }

  /** The step left writer `v` and its temporary file alone. */
  ghost predicate Spares(s: State, s': State, v: nat)
    requires WellFormed(s) && WellFormed(s') && v < |s.writers| && v < |s'.writers|
  {
    && s'.writers[v] == s.writers[v]
    && var p := s.writers[v].phase;
    (Holding(p) && p.ino < |s.inodes| && p.tmp in Cur(s) && Cur(s)[p.tmp] == p.ino ==>
       p.ino < |s'.inodes| && s'.inodes[p.ino] == s.inodes[p.ino] && p.tmp in Cur(s') && Cur(s')[p.tmp] == p.ino)
  }

  lemma JobStays(init: State, s: State, s': State, job: Job)
    requires WellFormed(init) && Extends(s, s') && JobOk(init, s, job)
    ensures JobOk(init, s', job)
  {
    if job.Backup? { VersionStays(init, s, s', s.inodes[job.src].data); }
  }

  lemma WriterStays(init: State, s: State, s': State, v: nat)
    requires WellFormed(init) && WellFormed(s) && WellFormed(s') && Extends(s, s') && v < |s.writers|
    requires WriterOk(init, s, v) && Spares(s, s', v)
    ensures WriterOk(init, s', v)
  {
    var p := s.writers[v].phase;
    if HasJob(p) {
      JobStays(init, s, s', p.job);
      assert Payload(s', v, p.job) == Payload(s, v, p.job);
    }
  }

  /** A step of writer `w` that spares all others keeps what is known of all writers. */
  lemma WritersStay(init: State, s: State, s': State, w: nat)
    requires WellFormed(init) && WellFormed(s) && WellFormed(s') && Extends(s, s') && |s'.writers| == |s.writers|
    requires WritersOk(init, s) && w < |s.writers| && WriterOk(init, s', w)
    requires forall v :: 0 <= v < |s.writers| && v != w ==> Spares(s, s', v)
    ensures WritersOk(init, s')
  {
    forall v | 0 <= v < |s'.writers| ensures WriterOk(init, s', v) {
      if v != w { WriterStays(init, s, s', v); }
    }
  }

  lemma ApartStays(s: State, s': State, w: nat)
    requires Apart(s) && w < |s.writers| == |s'.writers|
    requires forall v :: 0 <= v < |s.writers| && v != w ==> s'.writers[v].phase == s.writers[v].phase
    requires forall v :: 0 <= v < |s.writers| && v != w ==> ApartPhases(s.writers[v].phase, s'.writers[w].phase)
    ensures Apart(s')
  {
  }

  /** Two writers that hold files hold different names too. */
  lemma NamesApart(init: State, s: State, v: nat, w: nat)
    requires Inv(init, s) && v < |s.writers| && w < |s.writers| && v != w
    requires Holding(s.writers[v].phase) && Holding(s.writers[w].phase)
    ensures s.writers[v].phase.ino != s.writers[w].phase.ino && s.writers[v].phase.tmp != s.writers[w].phase.tmp
  {
    assert WriterOk(init, s, v) && WriterOk(init, s, w);
    assert ApartPhases(s.writers[if v < w then v else w].phase, s.writers[if v < w then w else v].phase);
  }

  // ---- each kind of step keeps the invariant ----

  /** Steps that only move a writer on, without a temporary file it did not hold before. */
  lemma PhaseStep(init: State, s: State, w: nat, p: Phase)
    requires Inv(init, s) && w < |s.writers|
    requires Holding(p) ==> Holding(s.writers[w].phase) && p.ino == s.writers[w].phase.ino
    requires WriterOk(init, SetPhase(s, w, p), w)
    ensures Inv(init, SetPhase(s, w, p))
  {
    var s' := SetPhase(s, w, p);
    DirsStay(init, s, s');
    WritersStay(init, s, s', w);
    forall v | 0 <= v < |s.writers| && v != w ensures ApartPhases(s.writers[v].phase, p) {
      assert ApartPhases(s.writers[if v < w then v else w].phase, s.writers[if v < w then w else v].phase);
    }
    ApartStays(s, s', w);
  }

  lemma OpenStep(init: State, s: State, w: nat)
    requires Inv(init, s) && w < |s.writers| && s.target in Cur(s)
    ensures Inv(init, SetPhase(s, w, Creating(Backup(Cur(s)[s.target]), 0)))
  {
    var p := Creating(Backup(Cur(s)[s.target]), 0);
    assert DirOk(init, s, Cur(s));
    VersionStays(init, s, SetPhase(s, w, p), s.inodes[Cur(s)[s.target]].data);
    PhaseStep(init, s, w, p);
  }

  lemma MadeDirOk(init: State, s: State, s': State, name: string)
    requires Inv(init, s) && Extends(s, s') && |s'.inodes| == |s.inodes| + 1
    requires name !in Cur(s) && name != init.target && name != BakName(init.target)
    ensures DirOk(init, s', Cur(s)[name := |s.inodes|])
  {
    assert DirOk(init, s, Cur(s));
    DirStays(init, s, s', Cur(s));
  }

  lemma CreateStep(init: State, s: State, w: nat, job: Job, tries: nat, name: string)
    requires Inv(init, s) && w < |s.writers| && s.writers[w].phase == Creating(job, tries)
    requires name != s.target && name != BakName(s.target)
    ensures Inv(init, StepCreate(s, w, job, tries, name))
  {
    var s' := StepCreate(s, w, job, tries, name);
    assert WriterOk(init, s, w);
    JobStays(init, s, s', job);
    if name in Cur(s) {
      PhaseStep(init, s, w, s'.writers[w].phase);
    } else {
      MadeDirOk(init, s, s', name);
      DirsStay(init, s, s');
      assert DirOk(init, s, Cur(s));
      WritersStay(init, s, s', w);
      FreshFileApart(init, s, w);
      ApartStays(s, s', w);
    }
  }

  lemma FreshFileApart(init: State, s: State, w: nat)
    requires Inv(init, s) && w < |s.writers|
    ensures forall v :: 0 <= v < |s.writers| && Holding(s.writers[v].phase) ==> s.writers[v].phase.ino < |s.inodes|
  {
    forall v | 0 <= v < |s.writers| && Holding(s.writers[v].phase) ensures s.writers[v].phase.ino < |s.inodes| {
      assert WriterOk(init, s, v);
    }
  }

  /** Changing the writer's own file, which is not synced, spares everyone else. */
  lemma FileStep(init: State, s: State, w: nat, file: Inode, p: Phase)
    requires Inv(init, s) && w < |s.writers| && s.writers[w].phase.Writing?
    requires Holding(p) && p.ino == s.writers[w].phase.ino
    requires p.ino < |s.inodes| && WriterOk(init, SetPhase(s.(inodes := s.inodes[p.ino := file]), w, p), w)
    ensures Inv(init, SetPhase(s.(inodes := s.inodes[p.ino := file]), w, p))
  {
    var s' := SetPhase(s.(inodes := s.inodes[p.ino := file]), w, p);
    assert WriterOk(init, s, w);
    DirsStay(init, s, s');
    forall v | 0 <= v < |s.writers| && v != w
      ensures Spares(s, s', v) && ApartPhases(s.writers[v].phase, p)
    {
      if Holding(s.writers[v].phase) { NamesApart(init, s, v, w); }
    }
    WritersStay(init, s, s', w);
    ApartStays(s, s', w);
  }

  lemma WriteStep(init: State, s: State, w: nat, n: nat)
    requires Inv(init, s) && w < |s.writers| && Step(s, Write(w, n)).Some?
    ensures Inv(init, Step(s, Write(w, n)).value)
  {
    var p := s.writers[w].phase;
    var payload := Payload(s, w, p.job);
    var more := s.inodes[p.ino].data + payload[p.written..p.written + n];
    var s' := SetPhase(s.(inodes := s.inodes[p.ino := Inode(more, false)]), w, p.(written := p.written + n));
    assert WriterOk(init, s, w);
    assert more == payload[..p.written + n];
    JobStays(init, s, s', p.job);
    assert Payload(s', w, p.job) == payload;
    FileStep(init, s, w, Inode(more, false), p.(written := p.written + n));
  }

  lemma SyncStep(init: State, s: State, w: nat)
    requires Inv(init, s) && w < |s.writers| && Step(s, Sync(w)).Some?
    ensures Inv(init, Step(s, Sync(w)).value)
  {
    var p := s.writers[w].phase;
    var file := s.inodes[p.ino].(synced := true);
    var s' := SetPhase(s.(inodes := s.inodes[p.ino := file]), w, Renaming(p.job, p.tmp, p.ino));
    assert WriterOk(init, s, w);
    JobStays(init, s, s', p.job);
    assert Payload(s', w, p.job) == Payload(s, w, p.job);
    FileStep(init, s, w, file, Renaming(p.job, p.tmp, p.ino));
  }

  /** A new directory that keeps the names of all other writers. */
  lemma DirStep(init: State, s: State, w: nat, d: Dir, p: Phase)
    requires Inv(init, s) && w < |s.writers| && Holding(s.writers[w].phase)
    requires p == Failed || p == Succeeded || p == Creating(Replace, 0)
    requires DirOk(init, s, d)
    requires forall n :: n in Cur(s) && n != s.writers[w].phase.tmp && n != s.target && n != BakName(s.target) ==> n in d && d[n] == Cur(s)[n]
    ensures Inv(init, SetPhase(SetDir(s, d), w, p))
  {
    var s' := SetPhase(SetDir(s, d), w, p);
    DirStays(init, s, s', d);
    DirsStay(init, s, s');
    forall v | 0 <= v < |s.writers| && v != w
      ensures Spares(s, s', v) && ApartPhases(s.writers[v].phase, p)
    {
      if Holding(s.writers[v].phase) {
        NamesApart(init, s, v, w);
        assert WriterOk(init, s, v);
      }
    }
    WritersStay(init, s, s', w);
    ApartStays(s, s', w);
  }

  /** What is renamed into place is the whole of what the job writes. */
  lemma RenamedDirOk(init: State, s: State, w: nat)
    requires Inv(init, s) && w < |s.writers| && s.writers[w].phase.Renaming?
    ensures var p := s.writers[w].phase; p.tmp in Cur(s) && DirOk(init, s, AfterRename(Cur(s), p.tmp, Goal(s.target, p.job)))
  {
    var p := s.writers[w].phase;
    assert WriterOk(init, s, w);
    assert DirOk(init, s, Cur(s));
    assert IsVersion(init, s, Payload(s, w, p.job));
    BakIsNotTarget(s.target);
  }

  lemma BakIsNotTarget(target: string)
    ensures BakName(target) != target
  {
    assert |BakName(target)| > |target|;
  }

  lemma RenameStep(init: State, s: State, w: nat)
    requires Inv(init, s) && w < |s.writers| && Step(s, Rename(w)).Some?
    ensures Inv(init, Step(s, Rename(w)).value)
  {
    var p := s.writers[w].phase;
    RenamedDirOk(init, s, w);
    DirStep(init, s, w, AfterRename(Cur(s), p.tmp, Goal(s.target, p.job)), Next(p.job));
  }

  lemma RemoveStep(init: State, s: State, w: nat)
    requires Inv(init, s) && w < |s.writers| && Step(s, Remove(w)).Some?
    ensures Inv(init, Step(s, Remove(w)).value)
  {
    var p := s.writers[w].phase;
    assert WriterOk(init, s, w);
    assert DirOk(init, s, Cur(s));
    DirStep(init, s, w, AfterRemove(Cur(s), p.tmp), Failed);
  }

  lemma StartStep(init: State, s: State, bytes: Bytes)
    requires Inv(init, s)
    ensures Inv(init, Step(s, Start(bytes)).value)
  {
    var s' := Step(s, Start(bytes)).value;
    DirsStay(init, s, s');
    forall v | 0 <= v < |s'.writers| ensures WriterOk(init, s', v) {
      if v < |s.writers| { WriterStays(init, s, s', v); }
    }
  }

  lemma CrashStep(init: State, s: State, back: nat, junk: seq<Bytes>)
    requires Inv(init, s) && back < |s.dirs|
    ensures Inv(init, Step(s, Crash(back, junk)).value)
  {
    var s' := Step(s, Crash(back, junk)).value;
    assert Extends(s, s');
    DirsStay(init, s, s');
  }

  lemma StepKeepsInv(init: State, s: State, a: Action)
    requires Inv(init, s) && Step(s, a).Some?
    ensures Inv(init, Step(s, a).value)
  {
    match a
    case Start(bytes) => StartStep(init, s, bytes);
    case Crash(back, junk) => CrashStep(init, s, back, junk);
    case Open(w) => OpenStep(init, s, w);
    case Create(w, pid, counter) =>
      var p := s.writers[w].phase;
      TempNameIsNeither(s.target, p.job, pid, counter);
      CreateStep(init, s, w, p.job, p.tries, TmpSibling(Goal(s.target, p.job), pid, counter));
    case Write(w, n) => WriteStep(init, s, w, n);
    case Sync(w) => SyncStep(init, s, w);
    case Rename(w) => RenameStep(init, s, w);
    case Remove(w) => RemoveStep(init, s, w);
    case _ => PlainStep(init, s, a);
  }

  lemma PlainStep(init: State, s: State, a: Action)
    requires Inv(init, s) && Step(s, a).Some? && (a.Check? || a.RenameFails? || a.Fail?)
    ensures Inv(init, Step(s, a).value)
  {
    var p := s.writers[a.w].phase;
    assert WriterOk(init, s, a.w);
    if a.RenameFails? { JobStays(init, s, Step(s, a).value, p.job); }
    PhaseStep(init, s, a.w, Step(s, a).value.writers[a.w].phase);
  }

  lemma {:induction false} RunKeepsInv(init: State, schedule: seq<Action>)
    requires Initial(init)
    ensures Inv(init, Run(init, schedule))
  {
    if schedule == [] {
      InitialInv(init);
    } else {
      RunKeepsInv(init, schedule[..|schedule| - 1]);
      var before, a := Run(init, schedule[..|schedule| - 1]), schedule[|schedule| - 1];
      if Step(before, a).Some? { StepKeepsInv(init, before, a); }
    }
  }

  lemma InitialInv(init: State)
    requires Initial(init)
    ensures Inv(init, init)
  {
    assert DirOk(init, init, init.dirs[0]);
  }

  // ---- main results ----

  /**
   * For any number of writers and any crashes: every directory a crash may bring back, and the current one, has
   * whole contents at the target and at the backup, durable, and neither disappears.
   */
  lemma TargetAndBackupAlwaysWhole(init: State, schedule: seq<Action>, k: nat)
    requires Initial(init) && k < |Run(init, schedule).dirs|
    ensures var s := Run(init, schedule); var d := s.dirs[k]; var bak := BakName(init.target);
      && (init.target in Cur(init) ==> init.target in d)
      && (bak in Cur(init) ==> bak in d)
      && (init.target in d ==> exists data :: At(s, d, init.target) == Some(Inode(data, true)) && IsVersion(init, s, data))
      && (bak in d ==>
            || At(s, d, bak) == At(init, Cur(init), bak)
            || exists data :: At(s, d, bak) == Some(Inode(data, true)) && IsVersion(init, s, data))
  {
    RunKeepsInv(init, schedule);
    var s := Run(init, schedule);
    assert DirOk(init, s, s.dirs[k]);
  }

  /** Files already sitting at other names, temporary names among them, are untouched in every run. */
  lemma OtherFilesUntouched(init: State, schedule: seq<Action>, n: string)
    requires Initial(init) && n in Cur(init) && n != init.target && n != BakName(init.target)
    ensures var s := Run(init, schedule);
      n in Cur(s) && Cur(s)[n] == Cur(init)[n] && At(s, Cur(s), n) == At(init, Cur(init), n)
  {
    RunKeepsInv(init, schedule);
    var s := Run(init, schedule);
    assert DirOk(init, s, Cur(s));
  }
}
