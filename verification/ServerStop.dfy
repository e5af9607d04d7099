/** A graceful stop with a positive interval: the dumper flushes once more at the
    cancel, while requests are still served for a while. */
module ServerStop {
  import opened Options
  import opened Storage
  import opened ServerRuns
  import opened ServerTheorems
  import opened ServerRecovery
  import opened ServerRequests
  import opened ServerSync

  /** What became of the write, if there was one. */
  function WriteIn(io: Option<WriteOutcome>, run: seq<Step>): Option<WriteOutcome>
    decreases |run|
  {
    if run == [] then io else WriteIn(if run[0].Write? then Some(run[0].io) else io, run[1..])
  }

  /** The dumper took the lock for its last flush in s0, and io is the outcome of
      its write, if it has written. */
  ghost predicate LastFlush(s0: State, s: State, io: Option<WriteOutcome>) {
    && s.mode == Dumper && s.boot == Serving && s.restore == s0.restore
    && s.mem.start == s0.mem.start && s0.mem.log <= s.mem.log
    && FlushAt(s0, s, PhaseOf(s, DUMPER), io)
  }

  ghost predicate FlushAt(s0: State, s: State, p: Phase, io: Option<WriteOutcome>) {
    match p
    case Marshalling(k) => k == |s0.mem.log| && s.mem == s0.mem && NothingWritten(s0, s, io)
    case HalfRead(_, k) => k == |s0.mem.log| && s.mem == s0.mem && NothingWritten(s0, s, io)
    case Encoded(doc, k) =>
      && k == |s0.mem.log| && s.mem == s0.mem && NothingWritten(s0, s, io)
      && (doc.Some? <==> AllFinite(Entries(s0.mem.gauges)))
    case Writing(_, k) => k == |s0.mem.log| && AllFinite(Entries(s0.mem.gauges)) && NothingWritten(s0, s, io)
    case Idle => (io.Some? <==> AllFinite(Entries(s0.mem.gauges))) && WrittenAs(s0, s, io)
    case _ => false
  }

  ghost predicate WrittenAs(s0: State, s: State, io: Option<WriteOutcome>) {
    match io
    case Some(Written) => s.cut == Some(|s0.mem.log|)
    case Some(Torn) => s.cut == None && s.file == Some(Malformed)
    case _ => s.cut == s0.cut && s.file == s0.file
  }

  ghost predicate NothingWritten(s0: State, s: State, io: Option<WriteOutcome>) {
    io.None? && s.cut == s0.cut && s.file == s0.file
  }

  lemma DumperMoves(s0: State, s: State, a: Step, io: Option<WriteOutcome>)
    requires Inv(s) && Enabled(s, a) && OfGoroutine(a) && a.t == DUMPER && !a.FlushLock? && LastFlush(s0, s, io)
    ensures LastFlush(s0, Next(s, a), if a.Write? then Some(a.io) else io)
  {
    assert PhaseOk(s.mem, s.mode, s.cut, DUMPER, PhaseOf(s, DUMPER));
    MovePhase(s, a);
  }

  lemma OthersPut(s0: State, s: State, a: Step, io: Option<WriteOutcome>)
    requires Inv(s) && Enabled(s, a) && a.Put? && LastFlush(s0, s, io)
    ensures LastFlush(s0, Next(s, a), io)
  {
    LockFacts(s, DUMPER);
    LockFacts(s, a.t);
    MovePhase(s, a);
    PutShape(s, a);
  }

  lemma OthersMove(s0: State, s: State, a: Step, io: Option<WriteOutcome>)
    requires Inv(s) && Enabled(s, a) && OfGoroutine(a) && a.t != DUMPER && !a.Put? && LastFlush(s0, s, io)
    ensures !a.Write? && LastFlush(s0, Next(s, a), io)
  {
    assert a.Write? ==> PhaseOk(s.mem, s.mode, s.cut, a.t, s.threads[a.t]);
    MovePhase(s, a);
    GoroutineFrame(s, a);
  }

  lemma StepOfLastFlush(s0: State, s: State, a: Step, io: Option<WriteOutcome>)
    requires Inv(s) && Enabled(s, a) && !a.Crash? && !a.FlushLock? && LastFlush(s0, s, io)
    ensures LastFlush(s0, Next(s, a), if a.Write? then Some(a.io) else io)
  {
    ServingGoesOn(s, a);
    if a.Put? {
      OthersPut(s0, s, a, io);
    } else if a.t == DUMPER {
      DumperMoves(s0, s, a, io);
    } else {
      OthersMove(s0, s, a, io);
    }
  }

  predicate NoNewFlush(run: seq<Step>) {
    forall i :: 0 <= i < |run| ==> !run[i].Crash? && !run[i].FlushLock?
  }

  lemma {:induction false} RunOfLastFlush(s0: State, s: State, run: seq<Step>, io: Option<WriteOutcome>)
    requires Inv(s) && CanRun(s, run) && NoNewFlush(run) && LastFlush(s0, s, io)
    ensures Inv(After(s, run)) && LastFlush(s0, After(s, run), WriteIn(io, run))
    decreases |run|
  {
    if run != [] {
      StepOfLastFlush(s0, s, run[0], io);
      StepKeepsInv(s, run[0]);
      RunOfLastFlush(s0, Next(s, run[0]), run[1..], if run[0].Write? then Some(run[0].io) else io);
    }
  }

  /** From the last flush to the end of the process. It writes iff the gauges are
      finite when it takes the lock, and if that write succeeds the file is current
      at the end iff the updates made since then changed nothing; it is marshalled
      after all of them iff there were none. */
  lemma FileAfterTheLastFlush(s: State, run: seq<Step>)
    requires Reachable(s) && s.mode == Dumper && s.boot == Serving && Enabled(s, FlushLock(DUMPER))
    requires CanRun(Next(s, FlushLock(DUMPER)), run) && NoNewFlush(run)
    requires PhaseOf(After(Next(s, FlushLock(DUMPER)), run), DUMPER) == Idle
    ensures
      var now, io := After(Next(s, FlushLock(DUMPER)), run), WriteIn(None, run);
      && s.mem.log <= now.mem.log
      && (io.Some? <==> AllFinite(Entries(s.mem.gauges)))
      && (io == Some(Written) ==> (FileIsCurrent(now) <==> Contents(now.mem) == Contents(s.mem)))
      && (io == Some(Written) ==> (UpToDate(now) <==> now.mem.log == s.mem.log))
      && (io == Some(Torn) ==> now.file == Some(Malformed))
      && (io.None? || io == Some(Refused) ==> now.file == s.file)
  {
    ReachableInv(s);
    LastFlushStarts(s);
    RunOfLastFlush(s, Next(s, FlushLock(DUMPER)), run, None);
    var now := After(Next(s, FlushLock(DUMPER)), run);
    if WriteIn(None, run) == Some(Written) {
      FileIsCurrentMeans(now);
      assert now.mem.log[..|s.mem.log|] == s.mem.log;
    }
  }

  lemma LastFlushStarts(s: State)
    requires Inv(s) && s.mode == Dumper && s.boot == Serving && Enabled(s, FlushLock(DUMPER))
    ensures Inv(Next(s, FlushLock(DUMPER))) && LastFlush(s, Next(s, FlushLock(DUMPER)), None)
  {
    StepKeepsInv(s, FlushLock(DUMPER));
    if PhaseOf(s, DUMPER) != Idle {
      assert PhaseOk(s.mem, s.mode, s.cut, DUMPER, s.threads[DUMPER]);
    }
  }

  /** The next process then begins with the memory of that moment: whatever was
      updated and answered between the last flush and the end is lost. */
  lemma GracefulStopLosesTheLateUpdates(s: State, run: seq<Step>, boot: seq<Step>)
    requires Reachable(s) && s.mode == Dumper && s.boot == Serving && s.restore && Enabled(s, FlushLock(DUMPER))
    requires CanRun(Next(s, FlushLock(DUMPER)), run) && NoNewFlush(run) && WriteIn(None, run) == Some(Written)
    requires PhaseOf(After(Next(s, FlushLock(DUMPER)), run), DUMPER) == Idle
    requires CanRun(After(Next(s, FlushLock(DUMPER)), run), [Crash(false)] + boot) && NoCrash(boot)
    ensures
      var next := After(After(Next(s, FlushLock(DUMPER)), run), [Crash(false)] + boot);
      next.boot == Serving ==> next.mem.start == Contents(s.mem)
  {
    ReachableInv(s);
    LastFlushStarts(s);
    var s1 := Next(s, FlushLock(DUMPER));
    RunOfLastFlush(s, s1, run, None);
    OneStep(s, FlushLock(DUMPER));
    ReachableOn(s, [FlushLock(DUMPER)]);
    ReachableOn(s1, run);
    var now := After(s1, run);
    RestartBringsBackTheLastWrite(now, false, boot);
    assert now.mem.log[..|s.mem.log|] == s.mem.log;
  }
}
