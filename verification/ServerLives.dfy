/** Many lives of the server: which of all the updates ever made are in memory
    after any number of crashes and restarts. */
module ServerLives {
  import opened Options
  import opened Updates
  import opened Storage
  import opened ServerRuns
  import opened ServerRecovery

  /** The updates of earlier lives that the present one began with, and the
      store they were applied to. */
  datatype Past = Past(base: Store, kept: seq<Update>)

  const NOTHING: Past := Past(EMPTY, [])

  /** A crash keeps, of the updates of its life, those that were marshalled for
      the last write that succeeded. It keeps nothing at all without restore,
      with a torn file, or with no file. A crash during start-up changes nothing. */
  function Track(s: State, a: Step, p: Past): Past
    requires Enabled(s, a)
  {
    if !a.Crash? then p
    else if !s.restore || (a.torn && WriteUnderWay(s)) then NOTHING
    else if s.cut.Some? && s.cut.value <= |s.mem.log| then Past(p.base, p.kept + s.mem.log[..s.cut.value])
    else if s.boot == Serving then NOTHING
    else p
  }

  function TrackAll(s: State, run: seq<Step>, p: Past): Past
    requires CanRun(s, run)
    decreases |run|
  {
    if run == [] then p else TrackAll(Next(s, run[0]), run[1..], Track(s, run[0], p))
  }

  ghost predicate PastOk(s: State, p: Past) {
    && (s.boot == Restored ==> s.cut.Some?)
    && (s.boot == Starting ==> s.mem.start == EMPTY)
    && (s.boot != Starting && s.boot != Serving ==> s.restore)
    && Replay(p.base, p.kept) ==
       if s.boot == Serving || s.boot == Restored then s.mem.start else Recovered(s.file, s.restore)
  }

  lemma FileAfterCrash(s: State, a: Step)
    requires Inv(s) && a.Crash?
    ensures Next(s, a).file == (if a.torn && WriteUnderWay(s) then Some(Malformed) else s.file)
    ensures s.boot != Serving ==> !WriteUnderWay(s)
  {
  }

  lemma CrashKeepsPast(s: State, a: Step, p: Past)
    requires Inv(s) && a.Crash? && PastOk(s, p)
    ensures PastOk(Next(s, a), Track(s, a, p))
  {
    FileAfterCrash(s, a);
    if s.restore && !(a.torn && WriteUnderWay(s)) && s.cut.Some? {
      ReplayConcat(p.base, p.kept, s.mem.log[..s.cut.value]);
      assert Images(s.file.value, Prefix(s.mem, s.cut.value));
    }
  }

  lemma BootKeepsPast(s: State, a: Step, p: Past)
    requires Inv(s) && Enabled(s, a) && !OfGoroutine(a) && !a.Crash? && PastOk(s, p)
    ensures PastOk(Next(s, a), p)
  {
  }

  lemma StepKeepsPast(s: State, a: Step, p: Past)
    requires Inv(s) && Enabled(s, a) && PastOk(s, p)
    ensures PastOk(Next(s, a), Track(s, a, p))
  {
    if a.Crash? {
      CrashKeepsPast(s, a, p);
    } else if OfGoroutine(a) {
      LocksKept(s, a);
      if a.Put? { PutShape(s, a); } else { GoroutineFrame(s, a); }
    } else {
      BootKeepsPast(s, a, p);
    }
  }

  lemma {:induction false} RunKeepsPast(s: State, run: seq<Step>, p: Past)
    requires Inv(s) && CanRun(s, run) && PastOk(s, p)
    ensures PastOk(After(s, run), TrackAll(s, run, p)) && Inv(After(s, run))
    decreases |run|
  {
    if run != [] {
      StepKeepsInv(s, run[0]);
      StepKeepsPast(s, run[0], p);
      RunKeepsPast(Next(s, run[0]), run[1..], Track(s, run[0], p));
    }
  }

  /** After any run with any crashes, the memory of a serving process is what
      the first file held, or nothing, followed by exactly the updates that
      survived the earlier lives and then those of the present life. */
  lemma MemoryIsTheSurvivors(s: State, run: seq<Step>)
    requires Initial(s) && CanRun(s, run) && After(s, run).boot == Serving
    ensures
      var now := After(s, run);
      var p := TrackAll(s, run, Past(Recovered(s.file, s.restore), []));
      Contents(now.mem) == Replay(p.base, p.kept + now.mem.log)
  {
    var p0 := Past(Recovered(s.file, s.restore), []);
    InitKeepsInv(s);
    RunKeepsPast(s, run, p0);
    var now, p := After(s, run), TrackAll(s, run, p0);
    ReplayConcat(p.base, p.kept, now.mem.log);
  }

  lemma {:induction false} BaseIsFirstOrEmpty(s: State, run: seq<Step>, p: Past)
    requires CanRun(s, run)
    ensures TrackAll(s, run, p).base == p.base || TrackAll(s, run, p).base == EMPTY
    decreases |run|
  {
    if run != [] {
      BaseIsFirstOrEmpty(Next(s, run[0]), run[1..], Track(s, run[0], p));
    }
  }
}
