/** What the goroutines of the server can do: exactly when an update, a Get or a
    flush can start, that each can then be carried through, and that the server can
    always come to rest. */
module ServerProgress {
  import opened Options
  import opened Updates
  import opened Storage
  import opened ServerRuns
  import opened ServerTheorems
  import opened ServerRecovery
  import opened ServerRequests
  import opened ServerSync

  // ---------------------------------------------------------------- when it can start

  ghost predicate SomeWriter(s: State) {
    exists t :: WriterPhase(PhaseOf(s, t))
  }

  ghost predicate SomeReader(s: State) {
    exists t :: ReaderPhase(PhaseOf(s, t))
  }

  lemma LocksAreHeld(s: State)
    requires Inv(s)
    ensures s.writer.None? <==> !SomeWriter(s)
    ensures s.readers == {} <==> !SomeReader(s)
  {
    forall t | WriterPhase(PhaseOf(s, t)) || ReaderPhase(PhaseOf(s, t)) ensures s.writer.Some? || s.readers != {} {
      LockFacts(s, t);
    }
    if s.writer.Some? {
      LockFacts(s, s.writer.value);
    }
    if s.readers != {} {
      var t :| t in s.readers;
      LockFacts(s, t);
    }
  }

  /** A request with nothing else to do can take the lock iff nobody holds it, and
      start a Get iff nobody holds it for writing, whatever the interval. */
  lemma RequestsStartWhenTheLockIsFree(s: State, t: nat, u: Update, single: bool, q: Query)
    requires Reachable(s) && s.boot == Serving && t != DUMPER && PhaseOf(s, t) == Idle
    ensures Enabled(s, Lock(t, u, single)) <==> !SomeWriter(s) && !SomeReader(s)
    ensures Enabled(s, GetLock(t, q)) <==> !SomeWriter(s)
  {
    ReachableInv(s);
    LocksAreHeld(s);
  }

  /** With a positive interval the dumper can flush, whatever has been updated, iff
      nobody holds the lock for writing; with any other it never can. */
  lemma DumperFlushesWhenTheLockIsFree(s: State, interval: int)
    requires Reachable(s) && s.boot == Serving && s.mode == ModeOf(interval) && PhaseOf(s, DUMPER) == Idle
    ensures Enabled(s, FlushLock(DUMPER)) <==> interval > 0 && !SomeWriter(s)
  {
    ReachableInv(s);
    LocksAreHeld(s);
  }

  /** A handler that has to flush can, iff nobody holds the lock for writing. */
  lemma HandlerFlushesWhenTheLockIsFree(s: State, t: nat)
    requires Reachable(s) && s.boot == Serving && PhaseOf(s, t) == MustFlush
    ensures Enabled(s, FlushLock(t)) <==> !SomeWriter(s)
  {
    ReachableInv(s);
    LocksAreHeld(s);
  }

  /** Nobody serves before restore is over. */
  lemma NobodyStartsEarly(s: State, a: Step)
    requires Reachable(s) && s.boot != Serving && Enabled(s, a)
    ensures a.SkipRestore? || a.RestoreLock? || a.RestoreGauges? || a.RestoreCounters? || a.RestoreUnlock? || a.Crash?
  {
    ReachableInv(s);
    if OfGoroutine(a) {
      LockFacts(s, a.t);
    }
  }

  // ---------------------------------------------------------------- carried through

  /** All steps are of one goroutine. */
  predicate Alone(run: seq<Step>, t: nat) {
    forall k :: 0 <= k < |run| ==> OfGoroutine(run[k]) && run[k].t == t
  }

  /** An update of a free lock: it is applied, noted and, unless its save fails,
      journalled; the handler of single metrics has then to flush if the interval is
      zero, and any other is done. Nothing else changes. */
  lemma WholeUpdate(s: State, t: nat, u: Update, single: bool, error: Option<RetryLoops.RetryError>, interval: int)
    returns (run: seq<Step>)
    requires Reachable(s) && s.mode == ModeOf(interval) && s.boot == Serving && t != DUMPER && PhaseOf(s, t) == Idle
    requires !SomeWriter(s) && !SomeReader(s)
    ensures CanRun(s, run) && Alone(run, t)
    ensures
      var s' := After(s, run);
      && s'.mem.log == s.mem.log + [u] && Contents(s'.mem) == Apply(Contents(s.mem), u)
      && s'.mem.start == s.mem.start
      && s'.rows == (if error.None? then s.rows + [RowOf(u)] else s.rows) && s'.saves == s.saves + [error]
      && s'.threads == s.threads[t := if interval == 0 && single then MustFlush else Idle]
      && s' == s.(mem := s'.mem, rows := s'.rows, saves := s'.saves, threads := s'.threads)
  {
    ReachableInv(s);
    LocksAreHeld(s);
    run := UpdateStepsWith(t, u, single, error);
    var s' := AnyUpdate(s, t, u, single, error);
  }

  /** No request comes in and the process lives. */
  predicate NothingNew(run: seq<Step>) {
    forall i :: 0 <= i < |run| ==> !run[i].Lock? && !run[i].GetLock? && !run[i].Crash?
  }

  lemma LockAndRead(s: State, t: nat, q: Query) returns (s': State)
    requires Enabled(s, GetLock(t, q))
    ensures CanRun(s, [GetLock(t, q), GetRead(t)]) && After(s, [GetLock(t, q), GetRead(t)]) == s'
    ensures s'.answers == s.answers + [Answer(q, ReadingOf(q, Contents(s.mem)), |s.mem.log|)]
    ensures s'.threads == s.threads[t := Got] && s'.readers == s.readers + {t}
    ensures s' == s.(answers := s'.answers, threads := s'.threads, readers := s'.readers)
  {
    TwoSteps(s, GetLock(t, q), GetRead(t));
    s' := Next(Next(s, GetLock(t, q)), GetRead(t));
    assert s'.threads == s.threads[t := Got];
  }

  lemma GetRun(s: State, t: nat, q: Query) returns (run: seq<Step>)
    requires Enabled(s, GetLock(t, q)) && t !in s.readers
    ensures CanRun(s, run) && Alone(run, t)
    ensures
      var s' := After(s, run);
      && s'.answers == s.answers + [Answer(q, ReadingOf(q, Contents(s.mem)), |s.mem.log|)]
      && s'.threads == s.threads[t := Idle]
      && s' == s.(answers := s'.answers, threads := s'.threads)
  {
    var s1 := LockAndRead(s, t, q);
    run := [GetLock(t, q), GetRead(t)] + [GetUnlock(t)];
    UnlockGet(s, s1, t);
    OneStep(s1, GetUnlock(t));
    RunConcat(s, [GetLock(t, q), GetRead(t)], [GetUnlock(t)]);
  }

  /** A Get of a lock that is free of writers: it answers with the memory. */
  lemma WholeGet(s: State, t: nat, q: Query) returns (run: seq<Step>)
    requires Reachable(s) && s.boot == Serving && t != DUMPER && PhaseOf(s, t) == Idle && !SomeWriter(s)
    ensures CanRun(s, run) && Alone(run, t)
    ensures
      var s' := After(s, run);
      && s'.answers == s.answers + [Answer(q, ReadingOf(q, Contents(s.mem)), |s.mem.log|)]
      && s'.threads == s.threads[t := Idle]
      && s' == s.(answers := s'.answers, threads := s'.threads)
  {
    ReachableInv(s);
    LocksAreHeld(s);
    LockFacts(s, t);
    run := GetRun(s, t, q);
  }

  lemma UnlockGet(s: State, s1: State, t: nat)
    requires s1.threads == s.threads[t := Got] && s1.readers == s.readers + {t} && t !in s.readers
    requires s1 == s.(answers := s1.answers, threads := s1.threads, readers := s1.readers)
    ensures Enabled(s1, GetUnlock(t))
    ensures Next(s1, GetUnlock(t)) == s.(answers := s1.answers, threads := s.threads[t := Idle])
  {
    var s' := Next(s1, GetUnlock(t));
    assert s'.threads == s.threads[t := Idle] && s'.readers == s.readers;
  }

  /** What a write of the snapshot of s does. */
  lemma WriteAfter(s: State, s1: State, t: nat, io: WriteOutcome)
    requires s.mem.gauges.Made? && s.mem.counters.Made? && AllFinite(Entries(s.mem.gauges))
    requires s1.threads == s.threads[t := AfterMarshal(s.mem)]
    requires s1 == s.(threads := s1.threads)
    ensures Enabled(s1, Write(t, io))
    ensures
      var s' := Next(s1, Write(t, io));
      && s'.threads == s.threads[t := Idle]
      && (io == Written ==> FileIsCurrent(s') && s'.cut == Some(|s.mem.log|))
      && (io == Torn ==> s'.file == Some(Malformed))
      && (io == Refused ==> s'.file == s.file && s'.cut == s.cut)
      && s' == s.(threads := s'.threads, file := s'.file, cut := s'.cut)
  {
    SnapshotRoundTrip(s.mem.gauges, s.mem.counters);
    MarshalImages(s.mem);
    var s' := Next(s1, Write(t, io));
    assert s'.threads == s.threads[t := Idle];
  }

  lemma MarshalImages(m: Memory)
    requires AllFinite(Entries(m.gauges))
    ensures AfterMarshal(m).Writing? && AfterMarshal(m).cut == |m.log|
    ensures m.gauges.Made? && m.counters.Made? ==> Images(AfterMarshal(m).bytes, Contents(m))
  {
    SnapshotRoundTrip(m.gauges, m.counters);
  }

  /** The state after a flush of s by t whose write meets io. */
  predicate Flushed(s: State, t: nat, io: WriteOutcome, s': State) {
    && s'.threads == s.threads[t := Idle]
    && (AllFinite(Entries(s.mem.gauges)) && io == Written ==> FileIsCurrent(s') && s'.cut == Some(|s.mem.log|))
    && (AllFinite(Entries(s.mem.gauges)) && io == Torn ==> s'.file == Some(Malformed))
    && (!AllFinite(Entries(s.mem.gauges)) || io == Refused ==> s'.file == s.file && s'.cut == s.cut)
    && s' == s.(threads := s'.threads, file := s'.file, cut := s'.cut)
  }

  lemma MarshalAndWrite(s: State, t: nat, io: WriteOutcome) returns (run: seq<Step>)
    requires Enabled(s, FlushLock(t)) && t !in s.readers && s.mem.gauges.Made? && s.mem.counters.Made?
    ensures run == FlushSteps(t) + if AllFinite(Entries(s.mem.gauges)) then [Write(t, io)] else []
    ensures CanRun(s, run) && Flushed(s, t, io, After(s, run))
  {
    var s1 := AnyMarshal(s, t);
    if AllFinite(Entries(s.mem.gauges)) {
      WriteAfter(s, s1, t, io);
      OneStep(s1, Write(t, io));
      RunConcat(s, FlushSteps(t), [Write(t, io)]);
      run := FlushSteps(t) + [Write(t, io)];
    } else {
      run := FlushSteps(t);
      assert run + [] == run;
    }
  }

  lemma FlushRun(s: State, t: nat, io: WriteOutcome) returns (run: seq<Step>)
    requires Enabled(s, FlushLock(t)) && t !in s.readers && s.mem.gauges.Made? && s.mem.counters.Made?
    ensures CanRun(s, run) && Alone(run, t) && NothingNew(run) && Flushed(s, t, io, After(s, run))
  {
    run := MarshalAndWrite(s, t, io);
    FlushIsAlone(t, io);
  }

  lemma FlushIsAlone(t: nat, io: WriteOutcome)
    ensures Alone(FlushSteps(t) + [], t) && NothingNew(FlushSteps(t) + [])
    ensures Alone(FlushSteps(t) + [Write(t, io)], t) && NothingNew(FlushSteps(t) + [Write(t, io)])
  {
  }

  /** A flush by whoever may flush: the dumper, or a handler that has to. With
      finite gauges it ends with the write; if that succeeds the file is current. A
      gauge that is not finite ends it before the write, and the file stays. */
  lemma AnyFlush(s: State, t: nat, io: WriteOutcome) returns (run: seq<Step>)
    requires Reachable(s) && s.boot == Serving && Enabled(s, FlushLock(t))
    ensures CanRun(s, run) && Alone(run, t) && NothingNew(run) && Flushed(s, t, io, After(s, run))
  {
    ReachableInv(s);
    LockFacts(s, t);
    run := FlushRun(s, t, io);
  }

  /** So from every state in which nobody writes, the dumper by itself can bring
      the file up to date: nothing that was ever updated keeps it from that. */
  lemma DumperBringsTheFileUpToDate(s: State, interval: int) returns (run: seq<Step>)
    requires Reachable(s) && s.boot == Serving && s.mode == ModeOf(interval) && interval > 0
    requires PhaseOf(s, DUMPER) == Idle && !SomeWriter(s) && AllFinite(Entries(s.mem.gauges))
    ensures CanRun(s, run) && Alone(run, DUMPER) && NothingNew(run)
    ensures FileIsCurrent(After(s, run)) && After(s, run).cut == Some(|s.mem.log|) && After(s, run).mem == s.mem
  {
    DumperFlushesWhenTheLockIsFree(s, interval);
    run := AnyFlush(s, DUMPER, Written);
  }

  // ---------------------------------------------------------------- coming to rest

  /** The steps of a phase before the goroutine is idle. */
  function Rank(p: Phase): nat {
    match p
    case Idle => 0
    case Got => 1
    case Getting(_, _) => 2
    case Writing(_, _) => 3
    case Encoded(_, _) => 4
    case HalfRead(_, _) => 5
    case Marshalling(_) => 6
    case MustFlush => 7
    case Saved(_) => 8
    case Saving(_, _) => 9
    case Loaded(_, _, _) => 10
    case Holding(_, _) => 11
  }

  /** What it does next. */
  function Onward(p: Phase, t: nat): Step
    requires p != Idle
  {
    match p
    case Got => GetUnlock(t)
    case Getting(_, _) => GetRead(t)
    case Writing(_, _) => Write(t, Written)
    case Encoded(_, _) => FlushUnlock(t)
    case HalfRead(_, _) => EncodeCounters(t)
    case Marshalling(_) => EncodeGauges(t)
    case MustFlush => FlushLock(t)
    case Saved(_) => Unlock(t)
    case Saving(_, _) => Save(t, None)
    case Loaded(_, _, _) => Put(t)
    case Holding(u, _) => if u.SetGauge? then Put(t) else Load(t)
  }

  predicate NoOtherWriter(s: State, t: nat) {
    s.writer.None? || s.writer == Some(t)
  }

  lemma OnwardIsEnabled(s: State, t: nat)
    requires Inv(s) && s.boot == Serving && PhaseOf(s, t) != Idle && NoOtherWriter(s, t)
    ensures var a := Onward(PhaseOf(s, t), t); Enabled(s, a) && OfGoroutine(a) && a.t == t
    ensures !NilFor(s.mem, UpdateIn(s, t))
  {
    LockFacts(s, t);
  }

  /** The update it is at, or any. */
  function UpdateIn(s: State, t: nat): Update {
    var p := PhaseOf(s, t);
    if p.Holding? || p.Loaded? then p.u else AddCounter("", 0)
  }

  lemma OnwardRanks(s: State, t: nat)
    requires PhaseOf(s, t) != Idle && !NilFor(s.mem, UpdateIn(s, t)) && Enabled(s, Onward(PhaseOf(s, t), t))
    ensures Rank(PhaseOf(Next(s, Onward(PhaseOf(s, t), t)), t)) < Rank(PhaseOf(s, t))
    ensures NoOtherWriter(s, t) ==> NoOtherWriter(Next(s, Onward(PhaseOf(s, t), t)), t)
  {
  }

  lemma OnwardMoves(s: State, t: nat)
    requires Inv(s) && s.boot == Serving && PhaseOf(s, t) != Idle && NoOtherWriter(s, t)
    ensures
      var a := Onward(PhaseOf(s, t), t);
      && Enabled(s, a) && Rank(PhaseOf(Next(s, a), t)) < Rank(PhaseOf(s, t))
      && NoOtherWriter(Next(s, a), t) && Next(s, a).boot == Serving
      && Next(s, a).threads == s.threads[t := PhaseOf(Next(s, a), t)]
  {
    OnwardIsEnabled(s, t);
    OnwardRanks(s, t);
    MovePhase(s, Onward(PhaseOf(s, t), t));
  }

  lemma OnwardIsNothingNew(p: Phase, t: nat, rest: seq<Step>)
    requires p != Idle && NothingNew(rest) && Alone(rest, t)
    ensures NothingNew([Onward(p, t)] + rest) && Alone([Onward(p, t)] + rest, t)
  {
  }

  /** A goroutine that no writer keeps from the lock can always finish alone. */
  lemma {:induction false} FinishAlone(s: State, t: nat) returns (run: seq<Step>)
    requires Inv(s) && s.boot == Serving && NoOtherWriter(s, t)
    ensures CanRun(s, run) && NothingNew(run)
    ensures Alone(run, t)
    ensures Inv(After(s, run)) && After(s, run).boot == Serving && After(s, run).writer.None?
    ensures PhaseOf(s, t) == Idle ==> run == []
    ensures PhaseOf(s, t) != Idle ==> After(s, run).threads == s.threads[t := Idle]
    decreases Rank(PhaseOf(s, t))
  {
    LockFacts(s, t);
    if PhaseOf(s, t) == Idle {
      run := [];
    } else {
      var a := Onward(PhaseOf(s, t), t);
      OnwardMoves(s, t);
      StepKeepsInv(s, a);
      var rest := FinishAlone(Next(s, a), t);
      run := [a] + rest;
      assert run[1..] == rest;
      OnwardIsNothingNew(PhaseOf(s, t), t, rest);
    }
  }

  function Active(s: State): set<nat> {
    set t | t in s.threads && s.threads[t] != Idle
  }

  lemma OneLess(s: State, s': State, t: nat)
    requires s'.threads == s.threads[t := Idle] && t in Active(s)
    ensures |Active(s')| < |Active(s)|
  {
    assert Active(s') == Active(s) - {t};
  }

  /** The one that holds the lock for writing if there is one, or any other. */
  lemma SomeoneCanFinish(s: State) returns (t: nat)
    requires Inv(s) && !Quiet(s)
    ensures t in Active(s) && NoOtherWriter(s, t)
  {
    if s.writer.Some? {
      t := s.writer.value;
      LockFacts(s, t);
    } else {
      t :| t in s.threads && s.threads[t] != Idle;
    }
  }

  /** There is no deadlock: from every reachable serving state, once no request
      comes in, everybody can finish. */
  lemma {:induction false} ComesToRest(s: State) returns (run: seq<Step>)
    requires Inv(s) && s.boot == Serving
    ensures CanRun(s, run) && NothingNew(run) && Quiet(After(s, run))
    decreases |Active(s)|
  {
    if Quiet(s) {
      run := [];
    } else {
      var t := SomeoneCanFinish(s);
      var first := FinishAlone(s, t);
      var s1 := After(s, first);
      OneLess(s, s1, t);
      var rest := ComesToRest(s1);
      RunConcat(s, first, rest);
      run := first + rest;
    }
  }

  /** So, whatever is under way, the dumper can catch up: everybody finishes, then
      it flushes. Only a gauge that is not finite keeps the file from being current. */
  lemma DumperCatchesUp(s: State, interval: int) returns (run: seq<Step>)
    requires Reachable(s) && s.boot == Serving && s.mode == ModeOf(interval) && interval > 0
    ensures CanRun(s, run) && NothingNew(run)
    ensures AllFinite(Entries(After(s, run).mem.gauges)) ==> FileIsCurrent(After(s, run)) && UpToDate(After(s, run))
  {
    ReachableInv(s);
    var rest := ComesToRest(s);
    var s1 := After(s, rest);
    ReachableOn(s, rest);
    RestKeepsMode(s, rest);
    NoWriterAtRest(s1);
    if AllFinite(Entries(s1.mem.gauges)) {
      var flush := DumperBringsTheFileUpToDate(s1, interval);
      RunConcat(s, rest, flush);
      run := rest + flush;
    } else {
      run := rest;
    }
  }

  lemma NoWriterAtRest(s: State)
    requires Reachable(s) && Quiet(s)
    ensures !SomeWriter(s) && PhaseOf(s, DUMPER) == Idle
  {
  }

  lemma {:induction false} RestKeepsMode(s: State, run: seq<Step>)
    requires Inv(s) && s.boot == Serving && CanRun(s, run) && NothingNew(run)
    ensures After(s, run).mode == s.mode && After(s, run).boot == Serving
    decreases |run|
  {
    if run != [] {
      ServingGoesOn(s, run[0]);
      StepKeepsInv(s, run[0]);
      RestKeepsMode(Next(s, run[0]), run[1..]);
    }
  }

  // ---------------------------------------------------------------- a crash

  /** A crash can come at any time, and the next process always gets to serving:
      with the memory of the last write that succeeded, or with nothing. */
  lemma CrashAndRestart(s: State, torn: bool) returns (boot: seq<Step>)
    requires Reachable(s) && s.boot == Serving
    ensures CanRun(s, [Crash(torn)] + boot) && NoCrash(boot) && After(s, [Crash(torn)] + boot).boot == Serving
    ensures After(s, [Crash(torn)] + boot).mem.start ==
      if s.restore && s.cut.Some? && s.cut.value <= |s.mem.log| && !(torn && WriteUnderWay(s))
      then Replay(s.mem.start, s.mem.log[..s.cut.value])
      else EMPTY
  {
    ReachableInv(s);
    StepKeepsInv(s, Crash(torn));
    boot := StartUpReachesServing(Next(s, Crash(torn)));
    assert ([Crash(torn)] + boot)[1..] == boot;
    RestartBringsBackTheLastWrite(s, torn, boot);
  }
}
