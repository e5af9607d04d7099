/** The journal in the database: in every interleaving, and across crashes, it
    has one row for each update that was saved, in the order of the lock. */
module ServerJournal {
  import opened Numbers
  import opened Options
  import opened Updates
  import opened Storage
  import opened ServerRuns
  import opened ServerTheorems

  /** The last update of the log is in the map and not yet saved. */
  predicate SaveUnderWay(s: State) {
    s.writer.Some? && PhaseOf(s, s.writer.value).Saving?
  }

  /** The journal is first plus the rows of the saved updates. */
  ghost predicate Accounts(rows: seq<Row>, first: seq<Row>, log: seq<Update>, saves: Saves) {
    |saves| <= |log| && rows == RowsAfter(first, log[..|saves|], saves)
  }

  ghost predicate JournalOk(s: State) {
    && |s.mem.log| == |s.saves| + (if SaveUnderWay(s) then 1 else 0)
    && Accounts(s.rows, s.firstRows, s.mem.log, s.saves)
  }

  lemma OneMoreUpdate(rows: seq<Row>, first: seq<Row>, log: seq<Update>, saves: Saves, u: Update)
    requires Accounts(rows, first, log, saves)
    ensures Accounts(rows, first, log + [u], saves)
  {
    assert (log + [u])[..|saves|] == log[..|saves|];
  }

  lemma OneMoreSave(rows: seq<Row>, first: seq<Row>, log: seq<Update>, saves: Saves,
                    error: Option<RetryLoops.RetryError>)
    requires Accounts(rows, first, log, saves) && |saves| < |log|
    ensures Accounts(if error.None? then rows + [RowOf(log[|saves|])] else rows, first, log, saves + [error])
  {
    var k := |saves|;
    assert log[..k + 1][..k] == log[..k] && (saves + [error])[..k] == saves;
    if error.Some? {
      assert RowsAfter(first, log[..k], saves) + [] == RowsAfter(first, log[..k], saves);
    }
  }

  lemma PutKeepsJournal(s: State, a: Step)
    requires Inv(s) && Enabled(s, a) && a.Put? && JournalOk(s)
    ensures JournalOk(Next(s, a))
  {
    LockFacts(s, a.t);
    PutShape(s, a);
    OneMoreUpdate(s.rows, s.firstRows, s.mem.log, s.saves, PhaseOf(s, a.t).u);
  }

  lemma SaveKeepsJournal(s: State, a: Step)
    requires Inv(s) && Enabled(s, a) && a.Save? && JournalOk(s)
    ensures JournalOk(Next(s, a))
  {
    LockFacts(s, a.t);
    assert PhaseOk(s.mem, s.mode, s.cut, a.t, s.threads[a.t]);
    OneMoreSave(s.rows, s.firstRows, s.mem.log, s.saves, a.error);
  }

  lemma JournalFrame(s: State, a: Step)
    requires Enabled(s, a) && OfGoroutine(a) && !a.Save?
    ensures var s' := Next(s, a); s'.rows == s.rows && s'.firstRows == s.firstRows && s'.saves == s.saves
  {
  }

  lemma NothingToSave(s: State, a: Step)
    requires Inv(s) && Enabled(s, a) && OfGoroutine(a) && !a.Save? && !a.Put?
    ensures SaveUnderWay(Next(s, a)) <==> SaveUnderWay(s)
  {
    LockFacts(s, a.t);
    LocksKept(s, a);
    LockFacts(Next(s, a), a.t);
    if s.writer.Some? {
      LockFacts(s, s.writer.value);
    }
  }

  lemma OutsideKeepsJournal(s: State, a: Step)
    requires Inv(s) && Enabled(s, a) && !OfGoroutine(a) && JournalOk(s)
    ensures JournalOk(Next(s, a))
  {
    LockFacts(s, 0);
    if s.writer.Some? {
      LockFacts(s, s.writer.value);
    }
  }

  lemma StepKeepsJournal(s: State, a: Step)
    requires Inv(s) && Enabled(s, a) && JournalOk(s)
    ensures JournalOk(Next(s, a))
  {
    if a.Put? {
      PutKeepsJournal(s, a);
    } else if a.Save? {
      SaveKeepsJournal(s, a);
    } else if OfGoroutine(a) {
      GoroutineFrame(s, a);
      JournalFrame(s, a);
      NothingToSave(s, a);
    } else {
      OutsideKeepsJournal(s, a);
    }
  }

  lemma {:induction false} RunKeepsJournal(s: State, run: seq<Step>)
    requires Inv(s) && CanRun(s, run) && JournalOk(s)
    ensures JournalOk(After(s, run))
    decreases |run|
  {
    if run != [] {
      StepKeepsInv(s, run[0]);
      StepKeepsJournal(s, run[0]);
      RunKeepsJournal(Next(s, run[0]), run[1..]);
    }
  }

  /** In every reachable state the journal is what it was when the process
      began plus, in lock order, one row for each update whose save returned no
      error; at most the newest update is still to be saved. */
  lemma JournalIsTheSavedUpdates(s: State)
    requires Reachable(s)
    ensures |s.saves| <= |s.mem.log| <= |s.saves| + 1
    ensures s.writer.None? ==> |s.saves| == |s.mem.log|
    ensures s.rows == RowsAfter(s.firstRows, s.mem.log[..|s.saves|], s.saves)
  {
    var s0, run :| Initial(s0) && CanRun(s0, run) && After(s0, run) == s;
    InitKeepsInv(s0);
    RunKeepsJournal(s0, run);
  }

  /** Whenever the lock is free the counters in memory and the rows in the
      database tell the same story, up to the saves that failed. */
  lemma JournalMatchesMemory(s: State, n: string)
    requires Reachable(s) && s.boot == Serving && s.writer.None?
    ensures |s.saves| == |s.mem.log|
    ensures CounterOf(Contents(s.mem), n)
         == Wrap64(CounterOf(s.mem.start, n)
                   + RowSum(s.rows, n) - RowSum(s.firstRows, n) + UnsavedSum(s.mem.log, s.saves, n))
  {
    JournalIsTheSavedUpdates(s);
    MapsAreTheFold(s, n);
    assert s.mem.log[..|s.saves|] == s.mem.log;
    JournalMatchesCounter(s.mem.start, s.firstRows, s.mem.log, s.saves, n);
  }

  /** A name used only as a gauge since the process began: whenever the lock is
      free and its last update was saved, its last row has the value in memory. */
  lemma GaugeJournalMatchesMemory(s: State, n: string) returns (j: nat)
    requires Reachable(s) && s.boot == Serving && s.writer.None?
    requires forall k :: 0 <= k < |s.mem.log| && s.mem.log[k].name == n ==> s.mem.log[k].SetGauge?
    requires Writes(s.mem.log, n) && LastIndex(s.mem.log, n) < |s.saves| && s.saves[LastIndex(s.mem.log, n)].None?
    ensures n in Entries(s.mem.gauges) && LastRow(s.rows, n, j)
    ensures s.rows[j] == Row(n, GaugeText(Entries(s.mem.gauges)[n]))
  {
    JournalIsTheSavedUpdates(s);
    MapsAreTheFold(s, n);
    assert s.mem.log[..|s.saves|] == s.mem.log;
    j := JournalMatchesGauge(s.mem.start, s.firstRows, s.mem.log, s.saves, n);
  }

  lemma StepKeepsRows(s: State, a: Step)
    requires Enabled(s, a)
    ensures s.rows <= Next(s, a).rows
  {
  }

  /** Rows are only ever added, crashes included. */
  lemma {:induction false} RowsOnlyGrow(s: State, run: seq<Step>)
    requires CanRun(s, run)
    ensures s.rows <= After(s, run).rows
    decreases |run|
  {
    if run != [] {
      StepKeepsRows(s, run[0]);
      RowsOnlyGrow(Next(s, run[0]), run[1..]);
    }
  }
}
