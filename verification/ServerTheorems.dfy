/** What holds in every run of the server: exclusion, the fold, the snapshot
    file, and what a restart brings back. */
module ServerTheorems {
  import opened Numbers
  import opened Options
  import opened Updates
  import opened Storage
  import opened ServerRuns

  ghost predicate Reachable(s: State) {
    exists s0, run :: Initial(s0) && CanRun(s0, run) && After(s0, run) == s
  }

  lemma ReachableInv(s: State)
    requires Reachable(s)
    ensures Inv(s)
  {
    var s0, run :| Initial(s0) && CanRun(s0, run) && After(s0, run) == s;
    InitKeepsInv(s0);
    RunKeepsInv(s0, run);
  }

  // ---------------------------------------------------------------- exclusion

  /** Goroutine t is between taking the lock and finishing its map access. */
  predicate WritesMaps(s: State, t: nat) {
    PhaseOf(s, t).Holding? || PhaseOf(s, t).Loaded?
  }

  predicate ReadsMaps(s: State, t: nat) {
    PhaseOf(s, t).Marshalling? || PhaseOf(s, t).HalfRead? || PhaseOf(s, t).Getting?
  }

  predicate RestoreWritesMaps(s: State) {
    s.boot.RestoreLocked? || s.boot.HalfRestored?
  }

  /** No map write overlaps another map access, by a goroutine or by restore. */
  ghost predicate Exclusive(s: State) {
    && (forall t, r :: WritesMaps(s, t) && t != r ==> !WritesMaps(s, r) && !ReadsMaps(s, r))
    && (forall t :: RestoreWritesMaps(s) ==> !WritesMaps(s, t) && !ReadsMaps(s, t))
  }

  lemma MapAccessIsExclusive(s: State)
    requires Reachable(s)
    ensures Exclusive(s)
  {
    ReachableInv(s);
    forall t, r | WritesMaps(s, t) && t != r
      ensures !WritesMaps(s, r) && !ReadsMaps(s, r)
    {
      LockFacts(s, t);
      LockFacts(s, r);
    }
  }

  /** The read lock does not protect restore: were goroutines started before
      restore is over, one could read the maps while they are replaced. */
  lemma StartUpOrderIsNeeded(s: State)
    requires Initial(s) && s.restore && s.file.Some? && s.file.value.Json?
    ensures
      var early := s.(waits := false);
      var run := [RestoreLock, GetLock(1, AskCounter("PollCount"))];
      CanRun(early, run) && !Exclusive(After(early, run))
  {
    var early := s.(waits := false);
    var run := [RestoreLock, GetLock(1, AskCounter("PollCount"))];
    var s1 := Next(early, run[0]);
    var s2 := Next(s1, run[1]);
    assert run[1..] == [run[1]] && run[1..][1..] == [];
    assert CanRun(s2, run[1..][1..]) && After(s2, run[1..][1..]) == s2;
    assert CanRun(s1, run[1..]) && After(s1, run[1..]) == s2;
    assert RestoreWritesMaps(s2) && ReadsMaps(s2, 1);
  }

  /** A goroutine that holds the lock is never stuck. */
  lemma LockHoldersCanMove(s: State, t: nat)
    requires WriterPhase(PhaseOf(s, t)) || ReaderPhase(PhaseOf(s, t))
    ensures exists a :: OfGoroutine(a) && a.t == t && Enabled(s, a)
  {
    var a := match PhaseOf(s, t)
      case Holding(u, _) => if u.SetGauge? then Put(t) else Load(t)
      case Loaded(_, _, _) => Put(t)
      case Saving(_, _) => Save(t, None)
      case Saved(_) => Unlock(t)
      case Marshalling(_) => EncodeGauges(t)
      case HalfRead(_, _) => EncodeCounters(t)
      case Encoded(_, _) => FlushUnlock(t)
      case Getting(_, _) => GetRead(t)
      case _ => GetUnlock(t);
    assert Enabled(s, a);
  }

  // ---------------------------------------------------------------- the fold

  /** No update is lost or applied twice: the maps are the replay of the log. */
  lemma MapsAreTheFold(s: State, n: string)
    requires Reachable(s) && s.boot == Serving
    ensures Contents(s.mem) == Replay(s.mem.start, s.mem.log)
    ensures CounterOf(Contents(s.mem), n) == Wrap64(CounterOf(s.mem.start, n) + DeltaSum(s.mem.log, n))
  {
    ReachableInv(s);
    CounterFold(s.mem.start, s.mem.log, n);
  }

  /** Every Get answered with the fold of the updates before its lock. */
  lemma CounterAnswersAreTheFold(s: State, i: nat)
    requires Reachable(s) && i < |s.answers| && s.answers[i].q.AskCounter?
    ensures
      var a, n := s.answers[i], s.answers[i].q.key;
      && a.cut <= |s.mem.log| && a.reading.CounterIs?
      && var us := s.mem.log[..a.cut];
      && a.reading.val == Wrap64(CounterOf(s.mem.start, n) + DeltaSum(us, n))
      && (a.reading.ok <==> n in s.mem.start.counters || Counts(us, n))
  {
    ReachableInv(s);
    assert AnswerOk(s.mem, s.answers[i]);
    CounterFold(s.mem.start, s.mem.log[..s.answers[i].cut], s.answers[i].q.key);
  }

  lemma GaugeAnswersAreTheFold(s: State, i: nat)
    requires Reachable(s) && i < |s.answers| && s.answers[i].q.AskGauge?
    ensures
      var a, n := s.answers[i], s.answers[i].q.key;
      && a.cut <= |s.mem.log| && a.reading.GaugeIs?
      && var us := s.mem.log[..a.cut];
      && (a.reading.found <==> n in s.mem.start.gauges || Writes(us, n))
      && a.reading.level == if Writes(us, n) then us[LastIndex(us, n)].value
                            else if a.reading.found then s.mem.start.gauges[n]
                            else Finite(0.0)
  {
    ReachableInv(s);
    assert AnswerOk(s.mem, s.answers[i]);
    GaugeIsLastWrite(s.mem.start, s.mem.log[..s.answers[i].cut], s.answers[i].q.key);
  }

  predicate NotOf(run: seq<Step>, t: nat) {
    forall i :: 0 <= i < |run| ==> OfGoroutine(run[i]) && run[i].t != t
  }

  lemma GetHoldsStill(s: State, a: Step, t: nat)
    requires Inv(s) && Enabled(s, a) && OfGoroutine(a) && a.t != t && PhaseOf(s, t).Getting?
    ensures Next(s, a).mem == s.mem && PhaseOf(Next(s, a), t) == PhaseOf(s, t)
  {
    LockFacts(s, t);
    LockFacts(s, a.t);
    MovePhase(s, a);
    if !a.Put? { GoroutineFrame(s, a); }
  }

  lemma {:induction false} GetWaits(s: State, t: nat, run: seq<Step>)
    requires Inv(s) && PhaseOf(s, t).Getting? && CanRun(s, run) && NotOf(run, t)
    ensures After(s, run).mem == s.mem && PhaseOf(After(s, run), t) == PhaseOf(s, t)
    decreases |run|
  {
    if run != [] {
      GetHoldsStill(s, run[0], t);
      StepKeepsInv(s, run[0]);
      GetWaits(Next(s, run[0]), t, run[1..]);
    }
  }

  /** Whatever others do between the lock of a Get and its read, it answers
      with the memory, and the log, as they were when it took the lock. */
  lemma GetAnswersAsOfItsLock(s: State, t: nat, q: Query, run: seq<Step>)
    requires Reachable(s) && Enabled(s, GetLock(t, q))
    requires CanRun(Next(s, GetLock(t, q)), run) && NotOf(run, t)
    ensures
      var s' := After(Next(s, GetLock(t, q)), run);
      && Enabled(s', GetRead(t))
      && Next(s', GetRead(t)).answers == s'.answers + [Answer(q, ReadingOf(q, Contents(s.mem)), |s.mem.log|)]
  {
    ReachableInv(s);
    StepKeepsInv(s, GetLock(t, q));
    GetWaits(Next(s, GetLock(t, q)), t, run);
  }

  ghost predicate CutsGrow(s: State) {
    forall i, j :: 0 <= i < j < |s.answers| ==> s.answers[i].cut <= s.answers[j].cut
  }

  lemma StepKeepsCuts(s: State, a: Step)
    requires Inv(s) && Enabled(s, a) && CutsGrow(s)
    ensures CutsGrow(Next(s, a))
  {
    if a.GetRead? {
      assert PhaseOk(s.mem, s.mode, s.cut, a.t, s.threads[a.t]);
      assert forall i :: 0 <= i < |s.answers| ==> AnswerOk(s.mem, s.answers[i]);
    } else if OfGoroutine(a) {
      if a.Put? { PutShape(s, a); } else { GoroutineFrame(s, a); }
    }
  }

  lemma {:induction false} RunKeepsCuts(s: State, run: seq<Step>)
    requires Inv(s) && CanRun(s, run) && CutsGrow(s)
    ensures CutsGrow(After(s, run))
    decreases |run|
  {
    if run != [] {
      StepKeepsInv(s, run[0]);
      StepKeepsCuts(s, run[0]);
      RunKeepsCuts(Next(s, run[0]), run[1..]);
    }
  }

  /** No later answer of a process is older. */
  lemma AnswersNeverGoBack(s: State, i: nat, j: nat)
    requires Reachable(s) && i < j < |s.answers|
    ensures s.answers[i].cut <= s.answers[j].cut <= |s.mem.log|
  {
    var s0, run :| Initial(s0) && CanRun(s0, run) && After(s0, run) == s;
    InitKeepsInv(s0);
    RunKeepsCuts(s0, run);
    ReachableInv(s);
    assert AnswerOk(s.mem, s.answers[j]);
  }

  /** A file written by this program never leaves a nil map behind. */
  lemma MapsAreNeverNil(s: State)
    requires Reachable(s)
    ensures s.mem.gauges.Made? && s.mem.counters.Made?
  {
    ReachableInv(s);
  }

  const RESTORING: seq<Step> := [RestoreLock, RestoreGauges, RestoreCounters, RestoreUnlock]

  lemma RestoringRuns(s: State) returns (s': State)
    requires s.boot == Starting && s.restore && s.writer.None? && s.file.Some? && s.file.value.Json?
    ensures CanRun(s, RESTORING) && After(s, RESTORING) == s' && s'.boot == Serving
    ensures s'.mem.gauges == DecodeGauges(s.file.value) && s'.mem.counters == DecodeCounters(s.file.value)
    ensures s'.mem.log == [] && s'.mem.start == Contents(s'.mem)
    ensures s'.threads == s.threads && s'.writer == s.writer && s'.readers == s.readers && s'.waits == s.waits
  {
    var run := RESTORING;
    var s1 := Next(s, run[0]);
    var s2 := Next(s1, run[1]);
    var s3 := Next(s2, run[2]);
    s' := Next(s3, run[3]);
    var r1, r2, r3 := run[1..], run[1..][1..], run[1..][1..][1..];
    assert r1[0] == run[1] && r2[0] == run[2] && r3[0] == run[3] && r3[1..] == [];
    assert CanRun(s', r3[1..]) && After(s', r3[1..]) == s';
    assert CanRun(s3, r3) && After(s3, r3) == s';
    assert CanRun(s2, r2) && After(s2, r2) == s';
    assert CanRun(s1, r1) && After(s1, r1) == s';
  }

  // ---------------------------------------------------------------- the file

  /** The file, if it holds a snapshot at all, holds the memory as it was
      after some prefix of the updates. */
  lemma FileIsAPrefix(s: State)
    requires Reachable(s) && s.boot == Serving && s.file.Some? && s.file.value.Json?
    requires s.restore || s.cut.Some?
    ensures s.cut.Some? && s.cut.value <= |s.mem.log|
    ensures Images(s.file.value, Replay(s.mem.start, s.mem.log[..s.cut.value]))
    ensures Replay(Replay(s.mem.start, s.mem.log[..s.cut.value]), s.mem.log[s.cut.value..]) == Contents(s.mem)
  {
    ReachableInv(s);
    var k := s.cut.value;
    assert s.mem.log == s.mem.log[..k] + s.mem.log[k..];
    ReplayConcat(s.mem.start, s.mem.log[..k], s.mem.log[k..]);
  }

  predicate NoCrash(run: seq<Step>) {
    forall i :: 0 <= i < |run| ==> !run[i].Crash?
  }

  /** Everything on its way to the file is at least as new as k updates. */
  predicate NotBefore(s: State, k: nat) {
    && k <= |s.mem.log|
    && (s.cut.Some? ==> k <= s.cut.value)
    && (FlushPhase(PhaseOf(s, DUMPER)) ==> k <= PhaseOf(s, DUMPER).cut)
  }

  lemma DumperPutMovesOn(s: State, a: Step, k: nat)
    requires Inv(s) && Enabled(s, a) && a.Put? && s.mode == Dumper && NotBefore(s, k)
    ensures NotBefore(Next(s, a), k)
  {
    PutShape(s, a);
    MovePhase(s, a);
  }

  lemma DumperStepMovesOn(s: State, a: Step, k: nat)
    requires Inv(s) && Enabled(s, a) && OfGoroutine(a) && !a.Put? && s.mode == Dumper && NotBefore(s, k)
    ensures NotBefore(Next(s, a), k)
  {
    GoroutineFrame(s, a);
    MovePhase(s, a);
    assert a.t in s.threads ==> PhaseOk(s.mem, s.mode, s.cut, a.t, s.threads[a.t]);
  }

  lemma ServingGoesOn(s: State, a: Step)
    requires Inv(s) && Enabled(s, a) && !a.Crash? && s.boot == Serving
    ensures OfGoroutine(a) && Next(s, a).mode == s.mode && Next(s, a).boot == Serving
  {
    MovePhase(s, a);
  }

  lemma {:induction false} DumperRunMovesOn(s: State, run: seq<Step>, k: nat)
    requires Inv(s) && CanRun(s, run) && NoCrash(run) && s.mode == Dumper && s.boot == Serving
    requires NotBefore(s, k)
    ensures NotBefore(After(s, run), k)
    decreases |run|
  {
    if run != [] {
      StepKeepsInv(s, run[0]);
      ServingGoesOn(s, run[0]);
      if run[0].Put? { DumperPutMovesOn(s, run[0], k); } else { DumperStepMovesOn(s, run[0], k); }
      DumperRunMovesOn(Next(s, run[0]), run[1..], k);
    }
  }

  /** With a positive interval the snapshot never goes back while the process
      lives. */
  lemma DumperNeverGoesBack(s: State, run: seq<Step>)
    requires Reachable(s) && s.boot == Serving && s.mode == Dumper && s.cut.Some?
    requires CanRun(s, run) && NoCrash(run)
    ensures After(s, run).cut.Some? ==> s.cut.value <= After(s, run).cut.value
  {
    ReachableInv(s);
    if FlushPhase(PhaseOf(s, DUMPER)) {
      assert PhaseOk(s.mem, s.mode, s.cut, DUMPER, s.threads[DUMPER]);
    }
    DumperRunMovesOn(s, run, s.cut.value);
  }

  lemma NoFlushStep(s: State, a: Step)
    requires Inv(s) && s.mode == NoFlush && Enabled(s, a)
    ensures Next(s, a).file == s.file && Next(s, a).mode == NoFlush
  {
    assert forall t :: t in s.threads ==> !s.threads[t].Writing? by {
      assert forall t :: t in s.threads ==> PhaseOk(s.mem, s.mode, s.cut, t, s.threads[t]);
    }
    if a.Put? {
      PutShape(s, a);
    } else if OfGoroutine(a) {
      GoroutineFrame(s, a);
    }
  }

  /** With a negative interval nothing ever touches the file, crashes
      included. */
  lemma {:induction false} NoFlushKeepsTheFile(s: State, run: seq<Step>)
    requires Inv(s) && s.mode == NoFlush && CanRun(s, run)
    ensures After(s, run).file == s.file
    decreases |run|
  {
    if run != [] {
      StepKeepsInv(s, run[0]);
      NoFlushStep(s, run[0]);
      NoFlushKeepsTheFile(Next(s, run[0]), run[1..]);
    }
  }

  /** Who can have bytes on their way to the file: the dumper alone, or
      handlers of the single JSON endpoint alone, by the sign of the interval. */
  lemma WhoFlushes(s: State, interval: int, t: nat)
    requires Reachable(s) && s.mode == ModeOf(interval) && FlushPhase(PhaseOf(s, t))
    ensures interval >= 0
    ensures interval > 0 ==> t == DUMPER
    ensures interval == 0 ==> t != DUMPER
  {
    ReachableInv(s);
    assert PhaseOk(s.mem, s.mode, s.cut, t, s.threads[t]);
  }
}
