/** A life of the server that begins with a file this program did not write, as
    one that holds null: a map that is nil then stays nil. */
module ServerForeign {
  import opened Options
  import opened Storage
  import opened ServerRuns
  import opened ServerTheorems

  /** Which of the two maps are nil. */
  datatype Nils = Nils(gauges: bool, counters: bool)

  predicate InMemory(m: Memory, n: Nils) {
    && m.gauges.NilMap? == n.gauges && m.counters.NilMap? == n.counters
    && forall i :: 0 <= i < |m.log| ==> !HitsNil(m.log[i], n.gauges, n.counters)
  }

  predicate InDocument(d: Document, n: Nils) {
    d.Malformed? || (d.gauges.None? == n.gauges && d.counters.None? == n.counters)
  }

  predicate InPhase(p: Phase, n: Nils) {
    match p
    case HalfRead(g, _) => g.NilMap? == n.gauges
    case Encoded(doc, _) => doc.Some? ==> InDocument(doc.value, n)
    case Writing(bytes, _) => InDocument(bytes, n)
    case _ => true
  }

  predicate StaysNil(s: State, n: Nils) {
    && s.boot == Serving && InMemory(s.mem, n)
    && s.file.Some? && InDocument(s.file.value, n)
    && forall t :: t in s.threads ==> InPhase(s.threads[t], n)
  }

  lemma UpdateStaysNil(s: State, a: Step, n: Nils)
    requires Enabled(s, a) && OfUpdate(a) && StaysNil(s, n)
    ensures StaysNil(Next(s, a), n)
  {
  }

  lemma StepStaysNil(s: State, a: Step, n: Nils)
    requires Enabled(s, a) && !a.Crash? && StaysNil(s, n)
    ensures StaysNil(Next(s, a), n)
  {
    if OfUpdate(a) { UpdateStaysNil(s, a, n); }
  }

  lemma {:induction false} RunStaysNil(s: State, run: seq<Step>, n: Nils)
    requires CanRun(s, run) && NoCrash(run) && StaysNil(s, n)
    ensures StaysNil(After(s, run), n)
    decreases |run|
  {
    if run != [] {
      StepStaysNil(s, run[0], n);
      RunStaysNil(Next(s, run[0]), run[1..], n);
    }
  }

  /** The map write of goroutine t panics: the update is nowhere, the lock is
      free again, and the goroutine is gone. */
  predicate PutPanics(s: State, t: nat)
    requires Enabled(s, Put(t))
  {
    Next(s, Put(t)) == To(s, t, Idle).(writer := None)
  }

  /** In the whole life after restoring any file: a map is nil iff the file had
      no object for it; exactly the updates of such a map panic, so none of them is
      ever in the log; and what a flush writes has again no object for it. */
  lemma ForeignFilePanics(s: State, run: seq<Step>)
    requires s.boot == Starting && s.restore && s.writer.None?
    requires s.threads == map[] && s.file.Some? && s.file.value.Json?
    requires CanRun(s, RESTORING) && CanRun(After(s, RESTORING), run) && NoCrash(run)
    ensures
      var n, now := Nils(s.file.value.gauges.None?, s.file.value.counters.None?), After(After(s, RESTORING), run);
      && now.mem.gauges.NilMap? == n.gauges && now.mem.counters.NilMap? == n.counters
      && (forall t :: Enabled(now, Put(t)) ==>
            (PutPanics(now, t) <==> HitsNil(PhaseOf(now, t).u, n.gauges, n.counters)))
      && (forall i :: 0 <= i < |now.mem.log| ==> !HitsNil(now.mem.log[i], n.gauges, n.counters))
      && now.file.Some? && InDocument(now.file.value, n)
  {
    var n := Nils(s.file.value.gauges.None?, s.file.value.counters.None?);
    var s' := RestoringRuns(s);
    RestoringKeepsFile(s);
    RunStaysNil(s', run, n);
  }

  lemma RestoringKeepsFile(s: State)
    requires s.boot == Starting && s.restore && s.writer.None? && s.file.Some? && s.file.value.Json?
    requires CanRun(s, RESTORING)
    ensures After(s, RESTORING).file == s.file
  {
    var r1, r2, r3 := RESTORING[1..], RESTORING[1..][1..], RESTORING[1..][1..][1..];
    assert r1[0] == RestoreGauges && r2[0] == RestoreCounters && r3[0] == RestoreUnlock && r3[1..] == [];
  }
}
