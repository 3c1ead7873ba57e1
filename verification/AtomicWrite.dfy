/**
 * One writer's code over the directory machine: the calls of an atomic write in order, with the retry loop for
 * temporary names and the loop that writes in pieces. Each call is a step of the machine, so whatever holds of
 * every run of the machine holds of this code.
 */
module AtomicWrite {
  import opened Common
  import opened AtomicFile

  // ---- a single undisturbed writer, exactly ----

  /** The start directory, with the backup added when there was a target to back up. */
  ghost predicate Settled(init: State, s: State, d: Dir)
    requires WellFormed(init)
  {
    var bak := BakName(init.target);
    if init.target in Cur(init) then
      bak in d && d == Cur(init)[bak := d[bak]] && At(s, d, bak) == At(init, Cur(init), init.target)
    else d == Cur(init)
  }

  /** The directory as it would be with the target's first file still in place. */
  function WithFirstTarget(init: State, d: Dir): Dir
    requires WellFormed(init)
  {
    if init.target in Cur(init) then d[init.target := Cur(init)[init.target]] else AfterRemove(d, init.target)
  }

  /** The new bytes are in place, durable, next to a settled directory. */
  ghost predicate Replaced(init: State, s: State, bytes: Bytes)
    requires WellFormed(init) && WellFormed(s)
  {
    && init.target in Cur(s) && At(s, Cur(s), init.target) == Some(Inode(bytes, true))
    && Settled(init, s, WithFirstTarget(init, Cur(s)))
  }

  /** The target is what it was. */
  ghost predicate TargetUnchanged(init: State, s: State)
    requires WellFormed(init) && WellFormed(s)
  {
    && (init.target in Cur(s) <==> init.target in Cur(init))
    && At(s, Cur(s), init.target) == At(init, Cur(init), init.target)
  }

  ghost predicate SrcIsFirst(init: State, job: Job)
    requires WellFormed(init)
  {
    init.target in Cur(init) && job.Backup? && job.src == Cur(init)[init.target]
  }

  ghost predicate Exact(init: State, s: State)
    requires WellFormed(init) && WellFormed(s)
  {
    && |s.writers| == 1
    && match s.writers[0].phase
       case Checking => Cur(s) == Cur(init)
       case Opening => Cur(s) == Cur(init) && init.target in Cur(init)
       case Creating(job, _) => if job.Replace? then Settled(init, s, Cur(s)) else Cur(s) == Cur(init) && SrcIsFirst(init, job)
       case Writing(job, tmp, _, _) => HoldingExact(init, s, job, tmp)
       case Renaming(job, tmp, _) => HoldingExact(init, s, job, tmp)
       case Removing(job, tmp, _) => HoldingExact(init, s, job, tmp)
       case Succeeded => Replaced(init, s, s.writers[0].bytes)
       case Failed => TargetUnchanged(init, s)
       case Crashed => true
  }

  ghost predicate HoldingExact(init: State, s: State, job: Job, tmp: string)
    requires WellFormed(init) && WellFormed(s)
  {
    var rest := AfterRemove(Cur(s), tmp);
    if job.Replace? then Settled(init, s, rest) else rest == Cur(init) && SrcIsFirst(init, job)
  }

  lemma SettledStays(init: State, s: State, s': State, d: Dir)
    requires Inv(init, s) && Extends(s, s') && Settled(init, s, d)
    ensures Settled(init, s', d)
  {
    assert init.target in Cur(init) ==> init.inodes[Cur(init)[init.target]].synced;
  }

  /** As long as the writer has not finished, the target is what it was. */
  lemma ExactTarget(init: State, s: State)
    requires Inv(init, s) && Exact(init, s) && !s.writers[0].phase.Succeeded? && !s.writers[0].phase.Crashed?
    ensures TargetUnchanged(init, s)
  {
    BakIsNotTarget(init.target);
    assert WriterOk(init, s, 0);
    if Holding(s.writers[0].phase) {
      var rest := AfterRemove(Cur(s), s.writers[0].phase.tmp);
      assert init.target in Cur(s) <==> init.target in rest;
    }
  }

  lemma ExactCreate(init: State, s: State, pid: nat, counter: nat)
    requires Inv(init, s) && Exact(init, s) && s.writers[0].phase.Creating?
    ensures Exact(init, Step(s, Create(0, pid, counter)).value)
  {
    ExactTarget(init, s);
    var p, s' := s.writers[0].phase, Step(s, Create(0, pid, counter)).value;
    var name := TmpSibling(Goal(s.target, p.job), pid, counter);
    if name !in Cur(s) {
      assert AfterRemove(Cur(s'), name) == Cur(s);
      if p.job.Replace? { SettledStays(init, s, s', Cur(s)); }
    }
  }

  lemma HoldingStays(init: State, s: State, s': State, job: Job, tmp: string)
    requires Inv(init, s) && WellFormed(s') && Extends(s, s') && Cur(s') == Cur(s) && HoldingExact(init, s, job, tmp)
    ensures HoldingExact(init, s', job, tmp)
  {
    if job.Replace? { SettledStays(init, s, s', AfterRemove(Cur(s), tmp)); }
  }

  /** Writing and syncing change no directory, and no file but the writer's own. */
  lemma FileExtends(init: State, s: State, a: Action)
    requires Inv(init, s) && Step(s, a).Some? && (a.Write? || a.Sync?)
    ensures var s' := Step(s, a).value; Extends(s, s') && s'.dirs == s.dirs && |s'.writers| == |s.writers|
    ensures var p, p' := s.writers[a.w].phase, Step(s, a).value.writers[a.w].phase;
      p.Writing? && Holding(p') && p'.job == p.job && p'.tmp == p.tmp && !p'.Removing?
  {
    assert WriterOk(init, s, a.w);
  }

  lemma ExactFile(init: State, s: State, a: Action)
    requires Inv(init, s) && Exact(init, s) && Step(s, a).Some? && (a.Write? || a.Sync?)
    ensures Exact(init, Step(s, a).value)
  {
    var p, s' := s.writers[0].phase, Step(s, a).value;
    FileExtends(init, s, a);
    HoldingStays(init, s, s', p.job, p.tmp);
  }

  lemma RenameAgain(init: State, d: Dir, tmp: string, goal: string)
    requires tmp in d && tmp != goal
    ensures AfterRename(d, tmp, goal) == AfterRemove(d, tmp)[goal := d[tmp]]
  {
  }

  lemma ExactRenameBackup(init: State, s: State)
    requires Inv(init, s) && Exact(init, s) && Step(s, Rename(0)).Some? && s.writers[0].phase.job.Backup?
    ensures Exact(init, Step(s, Rename(0)).value)
  {
    var p := s.writers[0].phase;
    assert WriterOk(init, s, 0);
    RenameAgain(init, Cur(s), p.tmp, BakName(init.target));
    assert init.inodes[Cur(init)[init.target]].synced;
  }

  lemma ExactRenameReplace(init: State, s: State)
    requires Inv(init, s) && Exact(init, s) && Step(s, Rename(0)).Some? && s.writers[0].phase.job.Replace?
    ensures Exact(init, Step(s, Rename(0)).value)
  {
    var p, s' := s.writers[0].phase, Step(s, Rename(0)).value;
    assert WriterOk(init, s, 0);
    RenameAgain(init, Cur(s), p.tmp, init.target);
    BakIsNotTarget(init.target);
    var rest := AfterRemove(Cur(s), p.tmp);
    SettledStays(init, s, s', rest);
    assert WithFirstTarget(init, Cur(s')) == rest;
  }

  /** A step that is no start and no crash. */
  lemma ExactStep(init: State, s: State, a: Action)
    requires Inv(init, s) && Exact(init, s) && Step(s, a).Some? && !a.Start? && !a.Crash?
    ensures Exact(init, Step(s, a).value)
  {
    if a.Create? {
      ExactCreate(init, s, a.pid, a.counter);
    } else if a.Write? || a.Sync? {
      ExactFile(init, s, a);
    } else if a.Rename? {
      if s.writers[0].phase.job.Backup? { ExactRenameBackup(init, s); } else { ExactRenameReplace(init, s); }
    } else {
      ExactPlain(init, s, a);
    }
  }

  /** Checking and opening look at the start directory; giving up leaves the target as it was. */
  lemma ExactPlain(init: State, s: State, a: Action)
    requires Inv(init, s) && Exact(init, s) && Step(s, a).Some?
    requires a.Check? || a.Open? || a.RenameFails? || a.Remove? || a.Fail?
    ensures Exact(init, Step(s, a).value)
  {
    ExactTarget(init, s);
    if a.RenameFails? || a.Remove? || a.Fail? { GivingUp(init, s, a); }
  }

  lemma GivingUp(init: State, s: State, a: Action)
    requires Inv(init, s) && Exact(init, s) && Step(s, a).Some? && (a.RenameFails? || a.Remove? || a.Fail?)
    requires TargetUnchanged(init, s)
    ensures Exact(init, Step(s, a).value)
  {
    assert WriterOk(init, s, 0);
  }

  /** A step of the writer's own code. */
  predicate Ordinary(a: Action) { !a.Start? && !a.Crash? && a.w == 0 }

  /** One start, then only steps of that writer. */
  ghost predicate SoloTrace(trace: seq<Action>) {
    |trace| > 0 && trace[0].Start? && forall k :: 0 < k < |trace| ==> Ordinary(trace[k])
  }

  lemma StartOnly(init: State, bytes: Bytes)
    requires Initial(init)
    ensures Run(init, [Start(bytes)]) == init.(writers := [Writer(bytes, Checking)])
    ensures Exact(init, Run(init, [Start(bytes)]))
  {
    assert [Start(bytes)][..0] == [];
    assert Run(init, []) == init;
  }

  lemma {:induction false} SoloIsExact(init: State, trace: seq<Action>)
    requires Initial(init) && SoloTrace(trace)
    ensures Inv(init, Run(init, trace)) && Exact(init, Run(init, trace))
  {
    RunKeepsInv(init, trace);
    if |trace| == 1 {
      assert trace == [Start(trace[0].bytes)];
      StartOnly(init, trace[0].bytes);
    } else {
      var before, a := trace[..|trace| - 1], trace[|trace| - 1];
      SoloIsExact(init, before);
      if Step(Run(init, before), a).Some? { ExactStep(init, Run(init, before), a); }
    }
  }

  /** The names from one counter value up to another are all taken. */
  ghost predicate Taken(base: string, pid: nat, from: nat, to: nat, d: Dir) {
    from >= to || (TmpSibling(base, pid, to - 1) in d && Taken(base, pid, from, to - 1, d))
  }

  /** The first free of the names from a counter value on is the one before `to`. */
  ghost predicate FirstFree(base: string, pid: nat, from: nat, to: nat, d: Dir) {
    from < to <= from + TRIES && TmpSibling(base, pid, to - 1) !in d && Taken(base, pid, from, to - 1, d)
  }

  // ---- the code ----

  /** How many of the first `n` calls fail. */
  function Failures(breaks: nat -> bool, n: nat): nat {
    if n == 0 then 0 else Failures(breaks, n - 1) + if breaks(n - 1) then 1 else 0
  }

  lemma {:induction false} FailuresCount(breaks: nat -> bool, from: nat, to: nat)
    requires from <= to
    ensures Failures(breaks, from) <= Failures(breaks, to)
    ensures Failures(breaks, from) == Failures(breaks, to) <==> forall k :: from <= k < to ==> !breaks(k)
  {
    if from < to { FailuresCount(breaks, from, to - 1); }
  }

  /** One process that runs one atomic write; `trace` records the steps it took. */
  class Process {
    var state: State
    var counter: nat                // shared by all names this process makes
    const pid: nat
    const chunk: nat                // how many bytes one write takes at most
    const breaks: nat -> bool       // which of its calls fail
    var calls: nat
    ghost const init: State
    ghost const bytes: Bytes        // what the caller asked to be written
    ghost var trace: seq<Action>

    /** The process has done nothing the machine would not do, undisturbed, and writes the bytes it was given. */
    ghost predicate Valid()
      reads this
    {
      && Initial(init) && chunk > 0 && SoloTrace(trace) && state == Run(init, trace)
      && WellFormed(state) && |state.writers| == 1 && state.writers[0].bytes == bytes && state.target == init.target
    }

    ghost function Phase(): AtomicFile.Phase
      reads this
      requires Valid()
    {
      state.writers[0].phase
    }

    /** A process about to replace the target; it fixes what its calls will do. */
    constructor (start: State, bytes: Bytes, pid: nat, counter: nat, chunk: nat, breaks: nat -> bool)
      requires Initial(start) && chunk > 0
      ensures Valid() && init == start && this.bytes == bytes && trace == [Start(bytes)]
      ensures Phase() == Checking && state.target == start.target
      ensures this.pid == pid && this.counter == counter && this.chunk == chunk && this.breaks == breaks && this.calls == 0
    {
      this.state := start.(writers := [Writer(bytes, Checking)]);
      this.pid, this.counter, this.chunk, this.breaks, this.calls := pid, counter, chunk, breaks, 0;
      this.init, this.bytes, this.trace := start, bytes, [Start(bytes)];
      StartOnly(start, bytes);
    }

    /** One call: a step of the machine. */
    method Do(a: Action)
      requires Valid() && Ordinary(a) && Step(state, a).Some?
      modifies this`state, this`trace
      ensures Valid() && state == Step(old(state), a).value && trace == old(trace) + [a]
    {
      assert (trace + [a])[..|trace|] == trace;
      assert Step(state, a).value.target == state.target;
      assert |Step(state, a).value.writers| == 1 && Step(state, a).value.writers[0].bytes == bytes;
      state := Step(state, a).value;
      trace := trace + [a];
    }

    /** How many of its calls have failed so far. */
    ghost function Broken(): nat
      reads this
    {
      Failures(breaks, calls)
    }

    /** The last sixteen names for this file are all taken. */
    ghost predicate NoneFree(base: string)
      reads this
    {
      WellFormed(state) && counter >= TRIES && Taken(base, pid, counter - TRIES, counter, Cur(state))
    }

    /** A call since then failed, or the last sixteen names for the target, or for its backup, are taken. */
    ghost predicate Excused(from: nat, first: nat)
      reads this
    {
      || (exists k :: from <= k < calls && breaks(k))
      || (counter >= first + 16 && (NoneFree(init.target) || NoneFree(BakName(init.target))))
    }

    /** Whether the next call fails. */
    method NextFails() returns (fails: bool)
      requires Valid()
      modifies this`calls
      ensures Valid() && calls == old(calls) + 1 && fails == breaks(old(calls))
      ensures Broken() == old(Broken()) + if fails then 1 else 0
    {
      fails := breaks(calls);
      calls := calls + 1;
    }

    /** Gives up: the call failed and its error is returned. */
    method GiveUp()
      requires Valid() && !Phase().Succeeded? && !Phase().Crashed?
      modifies this`state, this`trace
      ensures Valid() && Phase().Failed?
    {
      Do(Fail(0));
    }

    /** The next call fails and its error is returned, or it does not. */
    method Stops() returns (stops: bool)
      requires Valid() && !Phase().Succeeded? && !Phase().Crashed?
      modifies this`state, this`trace, this`calls
      ensures Valid() && calls == old(calls) + 1 && Broken() == old(Broken()) + if stops then 1 else 0
      ensures if stops then Phase().Failed? else state == old(state)
    {
      stops := NextFails();
      if stops { GiveUp(); }
    }

    ghost function Base(): string
      reads this
      requires Valid() && HasJob(Phase())
    {
      Goal(state.target, Phase().job)
    }

    /** The writer holds a new, empty file of this name. */
    ghost predicate HoldsNew(job: Job, name: string)
      reads this
      requires Valid()
    {
      Phase().Writing? && Phase().job == job && Phase().tmp == name && Phase().written == 0
    }

    /** Tries one fresh name; a name in use is never opened. */
    method TryName() returns (made: bool)
      requires Valid() && Phase().Creating?
      modifies this`state, this`trace, this`counter
      ensures Valid() && counter == old(counter) + 1
      ensures made <==> TmpSibling(old(Base()), pid, old(counter)) !in old(Cur(state))
      ensures made ==> Phase() == Writing(old(Phase().job), TmpSibling(old(Base()), pid, old(counter)), old(|state.inodes|), 0)
      ensures !made ==> Cur(state) == old(Cur(state)) && state.target == old(state.target)
      ensures !made ==> Phase() == if old(Phase().tries) + 1 < TRIES then Creating(old(Phase().job), old(Phase().tries) + 1) else Failed
    {
      var name := TmpSibling(Goal(state.target, state.writers[0].phase.job), pid, counter);
      made := name !in state.dirs[|state.dirs| - 1];
      Do(Create(0, pid, counter));
      counter := counter + 1;
    }

    /** One round: the call fails, or the next name is tried. */
    method TryNext(ghost base: string, ghost job: Job, ghost d: Dir) returns (stops: bool, made: bool)
      requires Valid() && Phase().Creating? && Phase().job == job && Goal(state.target, job) == base && Cur(state) == d
      modifies this`state, this`trace, this`counter, this`calls
      ensures Valid() && calls == old(calls) + 1 && Broken() == old(Broken()) + if stops then 1 else 0
      ensures stops ==> !made && Phase().Failed? && counter == old(counter)
      ensures !stops ==> counter == old(counter) + 1 && (made <==> TmpSibling(base, pid, old(counter)) !in d)
      ensures made ==> HoldsNew(job, TmpSibling(base, pid, old(counter)))
      ensures !stops && !made ==> Cur(state) == d && Goal(state.target, job) == base
      ensures !stops && !made ==> Phase() == if old(Phase().tries) + 1 < TRIES then Creating(job, old(Phase().tries) + 1) else Failed
    {
      made := false;
      stops := Stops();
      if !stops { made := TryName(); }
    }

    /** Tries up to sixteen fresh names and creates the first that is free. */
    method CreateNewTemp() returns (made: bool)
      requires Valid() && Phase().Creating? && Phase().tries == 0
      modifies this`state, this`trace, this`counter, this`calls
      ensures Valid() && (made ==> counter > 0 && HoldsNew(old(Phase().job), TmpSibling(old(Base()), pid, counter - 1))) && (!made ==> Phase().Failed?)
      ensures made ==> FirstFree(old(Base()), pid, old(counter), counter, old(Cur(state)))
      ensures calls >= old(calls) && counter >= old(counter) && (made ==> Broken() == old(Broken()))
      ensures !made ==> Broken() > old(Broken()) || (counter == old(counter) + TRIES && NoneFree(old(Base())))
    {
      ghost var d, base, job := Cur(state), Base(), Phase().job;
      ghost var first, broken, before := counter, Broken(), calls;
      var tries, stops := 0, false;
      made := false;
      while tries < TRIES
        invariant Valid() && !made && 0 <= tries <= TRIES && counter == first + tries
        invariant Cur(state) == d && Goal(state.target, job) == base
        invariant Phase() == if tries < TRIES then Creating(job, tries) else Failed
        invariant Taken(base, pid, first, counter, d)
        invariant calls >= before && Broken() == broken
      {
        stops, made := TryNext(base, job, d);
        if stops || made { return; }
        tries := tries + 1;
      }
    }

    /** Writes the next `n` bytes. */
    method WritePiece(n: nat)
      requires Valid() && Phase().Writing? && Phase().written + n <= |Payload(state, 0, Phase().job)|
      modifies this`state, this`trace
      ensures Valid() && Phase() == old(Phase()).(written := old(Phase().written) + n)
      ensures |Payload(state, 0, Phase().job)| == old(|Payload(state, 0, Phase().job)|)
    {
      WritingGoesOn(n);
      Do(Write(0, n));
    }

    method SyncFile()
      requires Valid() && Phase().Writing? && Phase().written == |Payload(state, 0, Phase().job)|
      modifies this`state, this`trace
      ensures Valid() && Phase().Renaming? && Phase().job == old(Phase().job)
    {
      WritingGoesOn(0);
      Do(Sync(0));
    }

    /** Writes all the job's bytes in pieces, then syncs the file. */
    method WriteAllAndSync() returns (done: bool)
      requires Valid() && Phase().Writing? && Phase().written == 0
      modifies this`state, this`trace, this`calls
      ensures Valid() && (if done then Phase().Renaming? && Phase().job == old(Phase().job) else Phase().Failed?)
      ensures calls >= old(calls) && Broken() >= old(Broken()) && (done <==> Broken() == old(Broken()))
    {
      ghost var p := Phase();
      var size := |Payload(state, 0, state.writers[0].phase.job)|;
      var written := 0;
      while written < size
        invariant Valid() && 0 <= written <= size && Phase() == p.(written := written)
        invariant size == |Payload(state, 0, Phase().job)|
        invariant calls >= old(calls) && Broken() == old(Broken())
        decreases size - written
      {
        var stops := Stops();
        if stops { return false; }
        var n := if size - written < chunk then size - written else chunk;
        WritePiece(n);
        written := written + n;
      }
      var stops := Stops();
      if stops { return false; }
      SyncFile();
      return true;
    }

    /** A write of `n` bytes is possible, and does not change what remains to be written. */
    lemma WritingGoesOn(n: nat)
      requires Valid() && Phase().Writing? && Phase().written + n <= |Payload(state, 0, Phase().job)|
      ensures Step(state, Write(0, n)).Some?
      ensures Payload(Step(state, Write(0, n)).value, 0, Phase().job) == Payload(state, 0, Phase().job)
      ensures Phase().written == |Payload(state, 0, Phase().job)| ==> Step(state, Sync(0)).Some?
    {
      SoloIsExact(init, trace);
      assert WriterOk(init, state, 0);
      assert Step(state, Write(0, n)).Some?;
    }

    /** A synced file can be renamed, and so can one whose rename failed be removed. */
    lemma HeldName()
      requires Valid() && Holding(Phase())
      ensures Phase().tmp in Cur(state)
    {
      SoloIsExact(init, trace);
      assert WriterOk(init, state, 0);
    }

    /** Renames the file into place; when that fails the file is removed again, and a failure of that is ignored. */
    method RenameIntoPlace() returns (done: bool)
      requires Valid() && Phase().Renaming?
      modifies this`state, this`trace, this`calls
      ensures Valid() && Phase() == if done then Next(old(Phase().job)) else Failed
      ensures calls >= old(calls) && Broken() >= old(Broken()) && (done <==> Broken() == old(Broken()))
      ensures !done && !breaks(old(calls) + 1) ==> Cur(state) == AfterRemove(old(Cur(state)), old(Phase().tmp))
    {
      var fails := NextFails();
      HeldName();
      if !fails {
        Do(Rename(0));
        return true;
      }
      RollBack();
      return false;
    }

    method RollBack()
      requires Valid() && Phase().Renaming?
      modifies this`state, this`trace, this`calls
      ensures Valid() && Phase() == Failed && calls >= old(calls) && Broken() >= old(Broken())
      ensures !breaks(old(calls)) ==> Cur(state) == AfterRemove(old(Cur(state)), old(Phase().tmp))
    {
      Do(RenameFails(0));
      RemoveFile();
    }

    method RemoveFile()
      requires Valid() && Phase().Removing?
      modifies this`state, this`trace, this`calls
      ensures Valid() && Phase() == Failed && calls >= old(calls) && Broken() >= old(Broken())
      ensures !breaks(old(calls)) ==> Cur(state) == AfterRemove(old(Cur(state)), old(Phase().tmp))
    {
      var fails := NextFails();
      if fails { GiveUp(); } else { Do(Remove(0)); }
    }

    /** Puts the job's file in place: temporary file, bytes, sync, rename. */
    method PutFile() returns (done: bool)
      requires Valid() && Phase().Creating? && Phase().tries == 0
      modifies this`state, this`trace, this`counter, this`calls
      ensures Valid() && Phase() == if done then Next(old(Phase().job)) else Failed
      ensures calls >= old(calls) && counter >= old(counter) && (done ==> Broken() == old(Broken()))
      ensures !done ==> Broken() > old(Broken()) || (counter == old(counter) + TRIES && NoneFree(old(Base())))
    {
      done := CreateNewTemp();
      if done { done := WriteAllAndSync(); }
      if done { done := RenameIntoPlace(); }
    }

    /**
     * Backs up the target when it is a file, then replaces it by the bytes the caller gave. It fails only if a call
     * failed, or if sixteen names in a row were taken for the backup or for the target; and it succeeds only if none
     * failed.
     */
    method AtomicWrite() returns (ok: bool)
      requires Valid() && Phase().Checking?
      modifies this`state, this`trace, this`counter, this`calls
      ensures Valid() && calls >= old(calls)
      ensures ok ==> Replaced(init, state, bytes) && forall k :: old(calls) <= k < calls ==> !breaks(k)
      ensures !ok ==> TargetUnchanged(init, state)
      ensures !ok ==> Excused(old(calls), old(counter))
    {
      Do(Check(0));
      ok := true;
      if state.writers[0].phase.Opening? {
        ok := BackUp();
      }
      if ok {
        ok := PutFile();
      }
      SoloIsExact(init, trace);
      FailuresCount(breaks, old(calls), calls);
    }

    method BackUp() returns (ok: bool)
      requires Valid() && Phase().Opening?
      modifies this`state, this`trace, this`counter, this`calls
      ensures Valid() && Phase() == if ok then Creating(Replace, 0) else Failed
      ensures calls >= old(calls) && counter >= old(counter) && (ok ==> Broken() == old(Broken()))
      ensures !ok ==> Broken() > old(Broken()) || (counter == old(counter) + TRIES && NoneFree(BakName(init.target)))
    {
      var stops := Stops();
      if stops { return false; }
      SoloIsExact(init, trace);
      Do(Open(0));
      ok := PutFile();
    }
  }
}
