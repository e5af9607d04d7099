/** What a crash loses. */
module ServerRecovery {
  import opened Options
  import opened Updates
  import opened Storage
  import opened ServerRuns
  import opened ServerTheorems

  // ---------------------------------------------------------------- restart

  /** What a new process starts from. */
  function Recovered(file: Option<Document>, restore: bool): Store {
    if restore && file.Some? && file.value.Json?
    then Store(Entries(DecodeGauges(file.value)), Entries(DecodeCounters(file.value)))
    else EMPTY
  }

  predicate ComesFrom(s: State, file: Option<Document>, restore: bool) {
    && s.restore == restore
    && match s.boot
       case Restored => s.mem.start == Recovered(file, restore)
       case Serving => s.mem.start == Recovered(file, restore)
       case Starting => s.file == file && s.mem.start == EMPTY
       case _ => s.file == file && s.mem.start == EMPTY && restore
  }

  lemma StepComesFrom(s: State, a: Step, file: Option<Document>, restore: bool)
    requires Inv(s) && Enabled(s, a) && !a.Crash? && ComesFrom(s, file, restore)
    ensures ComesFrom(Next(s, a), file, restore)
  {
    if s.boot == Serving {
      MovePhase(s, a);
      if a.Put? { PutShape(s, a); } else { GoroutineFrame(s, a); }
    }
  }

  lemma {:induction false} RunComesFrom(s: State, run: seq<Step>, file: Option<Document>, restore: bool)
    requires Inv(s) && CanRun(s, run) && NoCrash(run) && ComesFrom(s, file, restore)
    ensures ComesFrom(After(s, run), file, restore)
    decreases |run|
  {
    if run != [] {
      StepKeepsInv(s, run[0]);
      StepComesFrom(s, run[0], file, restore);
      RunComesFrom(Next(s, run[0]), run[1..], file, restore);
    }
  }

  predicate WriteUnderWay(s: State) {
    exists t :: t in s.threads && s.threads[t].Writing?
  }

  /** After a crash and any start-up, the process serves from the state that
      was encoded for the last write that succeeded, and from the empty state
      if there is none, restore is off, or the crash tore the file. */
  lemma RestartBringsBackTheLastWrite(s: State, torn: bool, run: seq<Step>)
    requires Reachable(s) && s.boot == Serving
    requires CanRun(s, [Crash(torn)] + run) && NoCrash(run)
    ensures
      var s' := After(s, [Crash(torn)] + run);
      s'.boot == Serving ==>
        s'.mem.start ==
          if s.restore && s.cut.Some? && s.cut.value <= |s.mem.log| && !(torn && WriteUnderWay(s))
          then Replay(s.mem.start, s.mem.log[..s.cut.value])
          else EMPTY
  {
    ReachableInv(s);
    var c := Crash(torn);
    var s1 := Next(s, c);
    StepKeepsInv(s, c);
    assert ([c] + run)[0] == c && ([c] + run)[1..] == run;
    RunComesFrom(s1, run, s1.file, s.restore);
  }

  /** The updates a restart loses are exactly those after the marshal of the
      last write: replaying them would give the memory at the crash. */
  lemma RestartLosesTheRest(s: State, torn: bool, run: seq<Step>)
    requires Reachable(s) && s.boot == Serving && s.restore && s.cut.Some? && !(torn && WriteUnderWay(s))
    requires CanRun(s, [Crash(torn)] + run) && NoCrash(run)
    requires After(s, [Crash(torn)] + run).boot == Serving
    ensures s.cut.value <= |s.mem.log|
    ensures Replay(After(s, [Crash(torn)] + run).mem.start, s.mem.log[s.cut.value..]) == Contents(s.mem)
  {
    ReachableInv(s);
    RestartBringsBackTheLastWrite(s, torn, run);
    FileIsAPrefix(s);
  }

  /** Start-up is never stuck. */
  lemma StartUpReachesServing(s: State) returns (run: seq<Step>)
    requires Inv(s) && s.boot == Starting
    ensures CanRun(s, run) && NoCrash(run) && After(s, run).boot == Serving
  {
    LockFacts(s, 0);
    if s.restore && s.file.Some? && s.file.value.Json? {
      var s' := RestoringRuns(s);
      run := RESTORING;
    } else {
      run := [SkipRestore];
      assert run[1..] == [];
      assert CanRun(Next(s, SkipRestore), run[1..]) && After(Next(s, SkipRestore), run[1..]).boot == Serving;
    }
  }
}
