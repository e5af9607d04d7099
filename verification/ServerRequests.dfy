/** Requests as runs: an update by one goroutine, alone, a flush, and the two
    together as the single-metric handler makes them. */
module ServerRequests {
  import opened Numbers
  import opened Options
  import opened Updates
  import opened Storage
  import opened ServerRuns
  import opened ServerTheorems

  lemma {:induction false} RunConcat(s: State, r1: seq<Step>, r2: seq<Step>)
    requires CanRun(s, r1) && CanRun(After(s, r1), r2)
    ensures CanRun(s, r1 + r2) && After(s, r1 + r2) == After(After(s, r1), r2)
    decreases |r1|
  {
    if r1 == [] {
      assert r1 + r2 == r2;
    } else {
      RunConcat(Next(s, r1[0]), r1[1..], r2);
      assert (r1 + r2)[0] == r1[0] && (r1 + r2)[1..] == r1[1..] + r2;
    }
  }

  lemma OneStep(s: State, a: Step)
    requires Enabled(s, a)
    ensures CanRun(s, [a]) && After(s, [a]) == Next(s, a)
  {
    assert [a][1..] == [];
    assert CanRun(Next(s, a), []) && After(Next(s, a), []) == Next(s, a);
  }

  lemma ReachableOn(s: State, run: seq<Step>)
    requires Reachable(s) && CanRun(s, run)
    ensures Reachable(After(s, run))
  {
    var s0, before :| Initial(s0) && CanRun(s0, before) && After(s0, before) == s;
    RunConcat(s0, before, run);
  }

  lemma TwoSteps(s: State, a: Step, b: Step)
    requires Enabled(s, a) && Enabled(Next(s, a), b)
    ensures CanRun(s, [a, b]) && After(s, [a, b]) == Next(Next(s, a), b)
  {
    OneStep(s, a);
    OneStep(Next(s, a), b);
    RunConcat(s, [a], [b]);
    assert [a] + [b] == [a, b];
  }

  // ---------------------------------------------------------------- an update

  predicate LockFree(s: State) {
    && s.boot == Serving && s.writer.None? && s.readers == {}
    && s.mem.gauges.Made? && s.mem.counters.Made?
  }

  predicate Unlocked(s: State) {
    s.mode == SyncHandler && LockFree(s)
  }

  predicate FiniteUpdate(u: Update) {
    u.SetGauge? ==> u.value.Finite?
  }

  /** The counter value that an update reads before it writes. */
  function ReadBefore(m: Memory, u: Update): Int64 {
    if u.AddCounter? then CounterOf(Contents(m), u.name) else 0
  }

  /** The memory after the update. */
  function WithUpdate(m: Memory, u: Update): Memory
    requires !NilFor(m, u)
  {
    PutInto(m, u, ReadBefore(m, u))
  }

  lemma UpdateApplies(m: Memory, u: Update)
    requires m.gauges.Made? && m.counters.Made?
    ensures Contents(WithUpdate(m, u)) == Apply(Contents(m), u) && WithUpdate(m, u).log == m.log + [u]
    ensures AllFinite(Entries(m.gauges)) && FiniteUpdate(u) ==> AllFinite(Entries(WithUpdate(m, u).gauges))
  {
  }

  lemma PutStaysFinite(m: Memory, u: Update, cur: Int64)
    requires !NilFor(m, u) && AllFinite(Entries(m.gauges)) && FiniteUpdate(u)
    ensures AllFinite(Entries(PutInto(m, u, cur).gauges))
  {
  }

  function PutSteps(t: nat, u: Update, single: bool): seq<Step> {
    [Lock(t, u, single)] + if u.AddCounter? then [Load(t), Put(t)] else [Put(t)]
  }

  /** The whole update; error is that of its save. */
  function UpdateStepsWith(t: nat, u: Update, single: bool, error: Option<RetryLoops.RetryError>): seq<Step> {
    PutSteps(t, u, single) + [Save(t, error), Unlock(t)]
  }

  function UpdateSteps(t: nat, u: Update, single: bool): seq<Step> {
    UpdateStepsWith(t, u, single, None)
  }

  lemma LockFor(s: State, t: nat, u: Update, single: bool) returns (s': State)
    requires LockFree(s) && t != DUMPER && PhaseOf(s, t) == Idle
    ensures Enabled(s, Lock(t, u, single)) && s' == Next(s, Lock(t, u, single))
    ensures s' == s.(threads := s.threads[t := Holding(u, single)], writer := Some(t))
  {
    s' := Next(s, Lock(t, u, single));
  }

  lemma PutGauge(s: State, t: nat, u: Update, single: bool) returns (s': State)
    requires PhaseOf(s, t) == Holding(u, single) && u.SetGauge? && s.mem.gauges.Made?
    ensures CanRun(s, [Put(t)]) && After(s, [Put(t)]) == s'
    ensures s' == s.(threads := s.threads[t := Saving(u, single)], mem := WithUpdate(s.mem, u))
  {
    OneStep(s, Put(t));
    s' := Next(s, Put(t));
  }

  lemma PutCounter(s: State, t: nat, u: Update, single: bool) returns (s': State)
    requires PhaseOf(s, t) == Holding(u, single) && u.AddCounter? && s.mem.counters.Made?
    ensures CanRun(s, [Load(t), Put(t)]) && After(s, [Load(t), Put(t)]) == s'
    ensures s' == s.(threads := s'.threads, mem := WithUpdate(s.mem, u))
    ensures s'.threads == s.threads[t := Saving(u, single)]
  {
    TwoSteps(s, Load(t), Put(t));
    s' := Next(Next(s, Load(t)), Put(t));
    assert s'.threads == s.threads[t := Saving(u, single)];
  }

  lemma LockAndPut(s: State, t: nat, u: Update, single: bool) returns (s': State)
    requires LockFree(s) && t != DUMPER && PhaseOf(s, t) == Idle
    ensures CanRun(s, PutSteps(t, u, single)) && After(s, PutSteps(t, u, single)) == s'
    ensures s' == s.(threads := s'.threads, writer := Some(t), mem := WithUpdate(s.mem, u))
    ensures s'.threads == s.threads[t := Saving(u, single)]
  {
    var s1 := LockFor(s, t, u, single);
    OneStep(s, Lock(t, u, single));
    if u.AddCounter? {
      s' := PutCounter(s1, t, u, single);
      RunConcat(s, [Lock(t, u, single)], [Load(t), Put(t)]);
    } else {
      s' := PutGauge(s1, t, u, single);
      RunConcat(s, [Lock(t, u, single)], [Put(t)]);
    }
    assert s'.threads == s.threads[t := Saving(u, single)];
  }

  /** Where a handler is after an update. */
  function AfterUpdate(mode: Mode, single: bool): Phase {
    if mode == SyncHandler && single then MustFlush else Idle
  }

  lemma SaveAndUnlock(s: State, t: nat, u: Update, single: bool, error: Option<RetryLoops.RetryError>)
    returns (s': State)
    requires PhaseOf(s, t) == Saving(u, single)
    ensures CanRun(s, [Save(t, error), Unlock(t)]) && After(s, [Save(t, error), Unlock(t)]) == s'
    ensures s'.threads == s.threads[t := AfterUpdate(s.mode, single)] && s'.writer.None?
    ensures s'.rows == (if error.None? then s.rows + [RowOf(u)] else s.rows) && s'.saves == s.saves + [error]
    ensures s' == s.(threads := s'.threads, writer := None, rows := s'.rows, saves := s'.saves)
  {
    TwoSteps(s, Save(t, error), Unlock(t));
    s' := Next(Next(s, Save(t, error)), Unlock(t));
    assert s'.threads == s.threads[t := AfterUpdate(s.mode, single)];
  }

  /** From any state with a free lock, whatever the mode: the update is the newest
      of the log and in the maps, its row in the journal unless its save fails. */
  lemma AnyUpdate(s: State, t: nat, u: Update, single: bool, error: Option<RetryLoops.RetryError>) returns (s': State)
    requires LockFree(s) && t != DUMPER && PhaseOf(s, t) == Idle
    ensures CanRun(s, UpdateStepsWith(t, u, single, error)) && After(s, UpdateStepsWith(t, u, single, error)) == s'
    ensures s'.threads == s.threads[t := AfterUpdate(s.mode, single)] && s'.mem == WithUpdate(s.mem, u)
    ensures s'.mem.log == s.mem.log + [u] && Contents(s'.mem) == Apply(Contents(s.mem), u)
    ensures s'.rows == (if error.None? then s.rows + [RowOf(u)] else s.rows) && s'.saves == s.saves + [error]
    ensures s' == s.(threads := s'.threads, mem := s'.mem, rows := s'.rows, saves := s'.saves)
  {
    UpdateApplies(s.mem, u);
    var s1 := LockAndPut(s, t, u, single);
    s' := SaveAndUnlock(s1, t, u, single, error);
    RunConcat(s, PutSteps(t, u, single), [Save(t, error), Unlock(t)]);
    assert s'.threads == s.threads[t := AfterUpdate(s.mode, single)];
  }

  lemma UpdatePart(s: State, t: nat, u: Update, single: bool) returns (s': State)
    requires Unlocked(s) && t != DUMPER && PhaseOf(s, t) == Idle
    ensures CanRun(s, UpdateSteps(t, u, single)) && After(s, UpdateSteps(t, u, single)) == s'
    ensures Unlocked(s') && s'.threads == s.threads[t := if single then MustFlush else Idle]
    ensures s'.mem == WithUpdate(s.mem, u) && s'.cut == s.cut && s'.file == s.file
  {
    s' := AnyUpdate(s, t, u, single, None);
  }

  // ---------------------------------------------------------------- a flush

  function FlushSteps(t: nat): seq<Step> {
    [FlushLock(t), EncodeGauges(t)] + [EncodeCounters(t), FlushUnlock(t)]
  }

  lemma LockAndEncode(s: State, t: nat) returns (s': State)
    requires Enabled(s, FlushLock(t))
    ensures CanRun(s, [FlushLock(t), EncodeGauges(t)]) && After(s, [FlushLock(t), EncodeGauges(t)]) == s'
    ensures s'.threads == s.threads[t := HalfRead(s.mem.gauges, |s.mem.log|)] && s'.readers == s.readers + {t}
    ensures s' == s.(threads := s'.threads, readers := s'.readers)
  {
    TwoSteps(s, FlushLock(t), EncodeGauges(t));
    s' := Next(Next(s, FlushLock(t)), EncodeGauges(t));
    assert s'.threads == s.threads[t := HalfRead(s.mem.gauges, |s.mem.log|)];
  }

  lemma EncodeAndUnlock(s: State, t: nat) returns (s': State)
    requires PhaseOf(s, t) == HalfRead(s.mem.gauges, |s.mem.log|)
    ensures CanRun(s, [EncodeCounters(t), FlushUnlock(t)]) && After(s, [EncodeCounters(t), FlushUnlock(t)]) == s'
    ensures s'.readers == s.readers - {t}
    ensures s'.threads == s.threads[t := AfterMarshal(s.mem)]
    ensures s' == s.(threads := s'.threads, readers := s'.readers)
  {
    TwoSteps(s, EncodeCounters(t), FlushUnlock(t));
    s' := Next(Next(s, EncodeCounters(t)), FlushUnlock(t));
    assert s'.threads == s.threads[t := AfterMarshal(s.mem)];
  }

  /** A snapshot on its way to the file, or none if a gauge is not finite. */
  function AfterMarshal(m: Memory): Phase {
    var doc := Encode(m.gauges, m.counters);
    if doc.None? then Idle else Writing(doc.value, |m.log|)
  }

  lemma AnyMarshal(s: State, t: nat) returns (s': State)
    requires Enabled(s, FlushLock(t)) && t !in s.readers
    ensures CanRun(s, FlushSteps(t)) && After(s, FlushSteps(t)) == s'
    ensures s'.threads == s.threads[t := AfterMarshal(s.mem)] && s' == s.(threads := s'.threads)
  {
    var s1 := LockAndEncode(s, t);
    s' := EncodeAndUnlock(s1, t);
    RunConcat(s, [FlushLock(t), EncodeGauges(t)], [EncodeCounters(t), FlushUnlock(t)]);
    assert s'.threads == s.threads[t := AfterMarshal(s.mem)] && s'.readers == s.readers;
  }

  lemma MarshalPart(s: State, t: nat) returns (s': State, doc: Document)
    requires Unlocked(s) && PhaseOf(s, t) == MustFlush && AllFinite(Entries(s.mem.gauges))
    ensures CanRun(s, FlushSteps(t)) && After(s, FlushSteps(t)) == s'
    ensures Unlocked(s') && s'.mem == s.mem && s'.cut == s.cut
    ensures s'.threads == s.threads[t := Writing(doc, |s.mem.log|)]
  {
    s' := AnyMarshal(s, t);
    doc := Encode(s.mem.gauges, s.mem.counters).value;
  }

  // ---------------------------------------------------------------- a request

  /** The steps of a single-metric request up to the write. */
  function RequestSteps(t: nat, u: Update): seq<Step> {
    UpdateSteps(t, u, true) + FlushSteps(t)
  }

  /** A whole request of goroutine t, up to the write of its snapshot. */
  lemma RequestPart(s: State, t: nat, u: Update) returns (s': State, doc: Document)
    requires Unlocked(s) && t != DUMPER && PhaseOf(s, t) == Idle
    requires FiniteUpdate(u) && AllFinite(Entries(s.mem.gauges))
    ensures CanRun(s, RequestSteps(t, u)) && After(s, RequestSteps(t, u)) == s'
    ensures Unlocked(s') && s'.mem == WithUpdate(s.mem, u) && s'.cut == s.cut
    ensures s'.mem.log == s.mem.log + [u] && AllFinite(Entries(s'.mem.gauges))
    ensures s'.threads == s.threads[t := Writing(doc, |s'.mem.log|)]
  {
    UpdateApplies(s.mem, u);
    var s1 := UpdatePart(s, t, u, true);
    s', doc := MarshalPart(s1, t);
    RunConcat(s, UpdateSteps(t, u, true), FlushSteps(t));
    assert s'.threads == s.threads[t := Writing(doc, |s'.mem.log|)];
  }
}
