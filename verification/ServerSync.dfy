/** With interval zero the handler of single metrics writes the snapshot itself:
    exactly when that keeps the file current. */
module ServerSync {
  import opened Numbers
  import opened Options
  import opened Updates
  import opened Storage
  import opened ServerRuns
  import opened ServerTheorems
  import opened ServerRequests

  // ---------------------------------------------------------------- the file

  predicate Quiet(s: State) {
    forall t :: t in s.threads ==> s.threads[t] == Idle
  }

  /** The file was marshalled after the last update. */
  predicate UpToDate(s: State) {
    s.cut == Some(|s.mem.log|)
  }

  /** The file holds exactly what the memory holds. */
  predicate FileIsCurrent(s: State) {
    s.file.Some? && Images(s.file.value, Contents(s.mem))
  }

  lemma ImageIsUnique(doc: Document, a: Store, b: Store)
    requires Images(doc, a) && Images(doc, b)
    ensures a == b
  {
  }

  /** The file is current iff the updates after its marshal changed nothing; so
      it is when there are none. */
  lemma FileIsCurrentMeans(s: State)
    requires Inv(s) && s.boot == Serving && s.cut.Some?
    ensures s.cut.value <= |s.mem.log|
    ensures FileIsCurrent(s) <==> Prefix(s.mem, s.cut.value) == Contents(s.mem)
    ensures UpToDate(s) ==> FileIsCurrent(s)
  {
    if FileIsCurrent(s) {
      ImageIsUnique(s.file.value, Prefix(s.mem, s.cut.value), Contents(s.mem));
    }
    assert s.mem.log[..|s.mem.log|] == s.mem.log;
  }

  // ---------------------------------------------------------------- requests one by one

  /** A goroutine is at an update or at the flush that follows it. */
  predicate Working(p: Phase) {
    !p.Idle? && !p.Getting? && !p.Got?
  }

  function Busy(s: State): set<nat> {
    set t | t in s.threads && Working(s.threads[t])
  }

  /** A request starts only when no other is under way. Its kind, its value and
      what becomes of its write are free, and so are the Gets. */
  predicate OneByOne(s: State, a: Step) {
    match a
    case Crash(_) => false
    case Lock(_, _, _) => Busy(s) == {}
    case _ => true
  }

  predicate RunsOneByOne(s: State, run: seq<Step>)
    requires CanRun(s, run)
    decreases |run|
  {
    run == [] || (OneByOne(s, run[0]) && RunsOneByOne(Next(s, run[0]), run[1..]))
  }

  /** The last request: whether it came to the single-metric handler, and what
      became of its write, if it came to one. */
  datatype Request = Request(single: bool, io: Option<WriteOutcome>)

  function Note(r: Option<Request>, a: Step): Option<Request> {
    match a
    case Lock(_, _, single) => Some(Request(single, None))
    case Write(_, io) => if r.Some? then Some(r.value.(io := Some(io))) else r
    case _ => r
  }

  function NoteAll(r: Option<Request>, run: seq<Step>): Option<Request>
    decreases |run|
  {
    if run == [] then r else NoteAll(Note(r, run[0]), run[1..])
  }

  function LastRequest(run: seq<Step>): Option<Request> {
    NoteAll(None, run)
  }

  predicate OnlyWorker(s: State, t: nat) {
    forall q :: q in s.threads && q != t ==> !Working(s.threads[q])
  }

  /** Where the only request stands, r says what is known of it, and the run
      began in s0. */
  predicate Follows(s0: State, s: State, t: nat, r: Option<Request>) {
    && s.mode == SyncHandler && s.boot == Serving && OnlyWorker(s, t)
    && if r.None? then !Working(PhaseOf(s, t)) && s.mem == s0.mem && s.file == s0.file && s.cut == s0.cut
       else StandsAt(|s0.mem.log|, s.mem, s.cut, PhaseOf(s, t), r.value)
  }

  predicate StandsAt(before: nat, m: Memory, cut: Option<nat>, p: Phase, r: Request) {
    if !Working(p) then Settled(before, m, cut, r)
    else
      match p
      case Holding(_, single) => r == Request(single, None) && before <= |m.log|
      case Loaded(_, single, _) => r == Request(single, None) && before <= |m.log|
      case Saving(_, single) => r == Request(single, None) && Behind(before, m, cut)
      case Saved(single) => r == Request(single, None) && Behind(before, m, cut)
      case Encoded(doc, _) =>
        && r == Request(true, None) && Behind(before, m, cut)
        && (doc.Some? <==> AllFinite(Entries(m.gauges)))
      case Writing(_, k) =>
        && r == Request(true, None) && Behind(before, m, cut)
        && k == |m.log| && AllFinite(Entries(m.gauges))
      case _ => r == Request(true, None) && Behind(before, m, cut)
  }

  predicate Behind(before: nat, m: Memory, cut: Option<nat>) {
    before < |m.log| && cut != Some(|m.log|)
  }

  predicate Settled(before: nat, m: Memory, cut: Option<nat>, r: Request) {
    && before < |m.log|
    && (cut == Some(|m.log|) <==> r.io == Some(Written))
    && (r.io.Some? <==> r.single && AllFinite(Entries(m.gauges)))
  }

  lemma NobodyWorks(s: State, t: nat)
    requires Busy(s) == {}
    ensures !Working(PhaseOf(s, t)) && OnlyWorker(s, t)
  {
    forall q | q in s.threads ensures !Working(s.threads[q]) {
      assert q !in Busy(s);
    }
  }

  lemma LockFollows(s0: State, s: State, t: nat, r: Option<Request>, a: Step)
    requires Inv(s) && Enabled(s, a) && a.Lock? && Busy(s) == {} && Follows(s0, s, t, r)
    ensures Follows(s0, Next(s, a), a.t, Note(r, a))
  {
    NobodyWorks(s, a.t);
    NobodyWorks(s, t);
  }

  lemma PutFollows(s0: State, s: State, t: nat, r: Option<Request>, a: Step)
    requires Inv(s) && Enabled(s, a) && a.Put? && Follows(s0, s, t, r)
    ensures Follows(s0, Next(s, a), t, r)
  {
    assert Working(PhaseOf(s, a.t)) && a.t == t;
    MovePhase(s, a);
    PutShape(s, a);
  }

  lemma UpdateFollows(s0: State, s: State, t: nat, r: Option<Request>, a: Step)
    requires Inv(s) && Enabled(s, a) && (a.Load? || a.Save? || a.Unlock?) && Follows(s0, s, t, r)
    ensures Follows(s0, Next(s, a), t, r)
  {
    assert Working(PhaseOf(s, a.t)) && a.t == t;
  }

  lemma FlushFollows(s0: State, s: State, t: nat, r: Option<Request>, a: Step)
    requires Inv(s) && Enabled(s, a) && OfFlush(a) && Follows(s0, s, t, r)
    ensures Follows(s0, Next(s, a), t, r)
  {
    assert Working(PhaseOf(s, a.t)) && a.t == t;
    assert PhaseOk(s.mem, s.mode, s.cut, t, s.threads[t]);
  }

  lemma WriteChanges(s: State, a: Step)
    requires Enabled(s, a) && a.Write? && PhaseOf(s, a.t).Writing?
    ensures var s' := Next(s, a);
      && s'.mem == s.mem && s'.mode == s.mode && s'.boot == s.boot && s'.threads == s.threads[a.t := Idle]
      && s'.cut == (match a.io case Written => Some(PhaseOf(s, a.t).cut) case Refused => s.cut case Torn => None)
  {
  }

  lemma WriteFollows(s0: State, s: State, t: nat, r: Option<Request>, a: Step)
    requires Inv(s) && Enabled(s, a) && a.Write? && Follows(s0, s, t, r)
    ensures Follows(s0, Next(s, a), t, Note(r, a))
  {
    assert Working(PhaseOf(s, a.t)) && a.t == t;
    WriteChanges(s, a);
    assert r.Some?;
  }

  predicate OfGet(a: Step) {
    a.GetLock? || a.GetRead? || a.GetUnlock?
  }

  lemma GetChanges(s: State, a: Step)
    requires Enabled(s, a) && OfGet(a)
    ensures var s' := Next(s, a);
      && s'.mem == s.mem && s'.mode == s.mode && s'.boot == s.boot && s'.cut == s.cut && s'.file == s.file
      && s'.threads == s.threads[a.t := PhaseOf(s', a.t)]
      && !Working(PhaseOf(s', a.t)) && !Working(PhaseOf(s, a.t))
  {
  }

  lemma GetFollows(s0: State, s: State, t: nat, r: Option<Request>, a: Step)
    requires Enabled(s, a) && OfGet(a) && Follows(s0, s, t, r)
    ensures Follows(s0, Next(s, a), t, r)
  {
    GetChanges(s, a);
  }

  lemma StepFollows(s0: State, s: State, t: nat, r: Option<Request>, a: Step)
    requires Inv(s) && Enabled(s, a) && OneByOne(s, a) && Follows(s0, s, t, r)
    ensures Follows(s0, Next(s, a), if a.Lock? then a.t else t, Note(r, a))
  {
    assert OfGoroutine(a);
    if a.Lock? {
      LockFollows(s0, s, t, r, a);
    } else if a.Put? {
      PutFollows(s0, s, t, r, a);
    } else if OfUpdate(a) {
      UpdateFollows(s0, s, t, r, a);
    } else if OfFlush(a) {
      FlushFollows(s0, s, t, r, a);
    } else if a.Write? {
      WriteFollows(s0, s, t, r, a);
    } else {
      GetFollows(s0, s, t, r, a);
    }
  }

  lemma {:induction false} RunFollows(s0: State, s: State, t: nat, r: Option<Request>, run: seq<Step>) returns (t': nat)
    requires Inv(s) && CanRun(s, run) && RunsOneByOne(s, run) && Follows(s0, s, t, r)
    ensures Inv(After(s, run)) && Follows(s0, After(s, run), t', NoteAll(r, run))
    decreases |run|
  {
    if run == [] {
      t' := t;
    } else {
      StepFollows(s0, s, t, r, run[0]);
      StepKeepsInv(s, run[0]);
      t' := RunFollows(s0, Next(s, run[0]), if run[0].Lock? then run[0].t else t, Note(r, run[0]), run[1..]);
    }
  }

  /** The last request came to the single-metric handler, the gauges were finite
      and its write succeeded. */
  predicate LastOneWasFlushed(s: State, last: Request) {
    last.single && AllFinite(Entries(s.mem.gauges)) && last.io == Some(Written)
  }

  /** With interval zero and requests one by one, of any kind and with any fate
      of their writes, whenever none is under way: without a request nothing
      has changed; after requests the file is up to date iff the last one came to
      the single-metric handler, all gauges were finite and its write succeeded.
      An up-to-date file holds exactly the memory, and one that is not does so
      only if the updates after its marshal changed nothing. */
  lemma SyncFlushFollowsTheLastRequest(s: State, run: seq<Step>)
    requires Reachable(s) && s.mode == SyncHandler && s.boot == Serving && Busy(s) == {}
    requires CanRun(s, run) && RunsOneByOne(s, run) && Busy(After(s, run)) == {}
    ensures |s.mem.log| <= |After(s, run).mem.log|
    ensures LastRequest(run).None? <==> |s.mem.log| == |After(s, run).mem.log|
    ensures
      var now, last := After(s, run), LastRequest(run);
      if last.None? then now.mem == s.mem && now.file == s.file && now.cut == s.cut
      else LastOneWasFlushed(now, last.value) <==> UpToDate(now)
    ensures
      var now, last := After(s, run), LastRequest(run);
      last.Some? ==> (last.value.io.Some? <==> last.value.single && AllFinite(Entries(now.mem.gauges)))
    ensures UpToDate(After(s, run)) ==> FileIsCurrent(After(s, run))
    ensures
      var now := After(s, run);
      now.cut.Some? ==>
        && now.cut.value <= |now.mem.log|
        && (FileIsCurrent(now) <==> Prefix(now.mem, now.cut.value) == Contents(now.mem))
  {
    ReachableInv(s);
    NobodyWorks(s, 1);
    var t := RunFollows(s, s, 1, None, run);
    var now := After(s, run);
    NobodyWorks(now, t);
    if now.cut.Some? {
      FileIsCurrentMeans(now);
    }
  }

  // ---------------------------------------------------------------- two requests at once

  /** Two requests at once: each flushes after its own update, and the second
      one writes first. */
  function Overlapping(u1: Update, u2: Update): seq<Step> {
    RequestSteps(1, u1) + RequestSteps(2, u2) + [Write(2, Written)]
  }

  lemma TwoRequests(s: State, u1: Update, u2: Update) returns (s': State, doc1: Document, doc2: Document)
    requires Unlocked(s) && PhaseOf(s, 1) == Idle && PhaseOf(s, 2) == Idle
    requires FiniteUpdate(u1) && FiniteUpdate(u2) && AllFinite(Entries(s.mem.gauges))
    ensures CanRun(s, RequestSteps(1, u1) + RequestSteps(2, u2))
    ensures After(s, RequestSteps(1, u1) + RequestSteps(2, u2)) == s'
    ensures s'.mem.log == s.mem.log + [u1] + [u2] && s'.boot == Serving
    ensures s'.threads == s.threads[1 := Writing(doc1, |s.mem.log| + 1)][2 := Writing(doc2, |s.mem.log| + 2)]
  {
    var s1;
    s1, doc1 := RequestPart(s, 1, u1);
    s', doc2 := RequestPart(s1, 2, u2);
    RunConcat(s, RequestSteps(1, u1), RequestSteps(2, u2));
  }

  lemma ThenWrite(s: State, run: seq<Step>, t: nat)
    requires CanRun(s, run) && Enabled(After(s, run), Write(t, Written))
    ensures CanRun(s, run + [Write(t, Written)])
    ensures After(s, run + [Write(t, Written)]) == Next(After(s, run), Write(t, Written))
  {
    OneStep(After(s, run), Write(t, Written));
    RunConcat(s, run, [Write(t, Written)]);
  }

  /** The second request writes first, so the first one's snapshot stays. */
  lemma SecondThenFirst(s0: State, s: State, doc1: Document, doc2: Document, k: nat)
    returns (before: State, after: State)
    requires PhaseOf(s0, 1) == Idle && PhaseOf(s0, 2) == Idle
    requires s.threads == s0.threads[1 := Writing(doc1, k)][2 := Writing(doc2, k + 1)]
    ensures Enabled(s, Write(2, Written)) && before == Next(s, Write(2, Written))
    ensures Enabled(before, Write(1, Written)) && after == Next(before, Write(1, Written))
    ensures before.cut == Some(k + 1) && after.cut == Some(k) && after.file == Some(doc1)
    ensures after.mem == s.mem && after.boot == s.boot
    ensures Quiet(s0) ==> Quiet(after)
  {
    before := Next(s, Write(2, Written));
    after := Next(before, Write(1, Written));
  }

  /** Both writes succeed and the file ends without the second update: the
      snapshot went back, and stays so until a later request writes again. */
  lemma SyncFlushCanEndStale(s: State, u1: Update, u2: Update) returns (before: State, after: State)
    requires Unlocked(s) && PhaseOf(s, 1) == Idle && PhaseOf(s, 2) == Idle
    requires FiniteUpdate(u1) && FiniteUpdate(u2) && AllFinite(Entries(s.mem.gauges))
    ensures CanRun(s, Overlapping(u1, u2)) && After(s, Overlapping(u1, u2)) == before
    ensures Enabled(before, Write(1, Written)) && after == Next(before, Write(1, Written))
    ensures before.cut == Some(|s.mem.log| + 2) && after.cut == Some(|s.mem.log| + 1)
    ensures after.mem.log == s.mem.log + [u1, u2] && after.boot == Serving
    ensures Quiet(s) ==> Quiet(after)
  {
    var s2, doc1, doc2 := TwoRequests(s, u1, u2);
    ThenWrite(s, RequestSteps(1, u1) + RequestSteps(2, u2), 2);
    before, after := SecondThenFirst(s, s2, doc1, doc2, |s.mem.log| + 1);
    assert s.mem.log + [u1] + [u2] == s.mem.log + [u1, u2];
  }

  /** So from every reachable state the overlap leads to a reachable one whose
      file is current only if the second update changed nothing. */
  lemma OverlapEndsBehind(s: State, u1: Update, u2: Update) returns (after: State)
    requires Reachable(s) && Unlocked(s) && PhaseOf(s, 1) == Idle && PhaseOf(s, 2) == Idle
    requires FiniteUpdate(u1) && FiniteUpdate(u2) && AllFinite(Entries(s.mem.gauges))
    ensures Reachable(after) && after.boot == Serving && after.mem.log == s.mem.log + [u1, u2]
    ensures FileIsCurrent(after) <==>
      Replay(after.mem.start, s.mem.log + [u1]) == Replay(after.mem.start, s.mem.log + [u1, u2])
  {
    var before;
    before, after := SyncFlushCanEndStale(s, u1, u2);
    ReachableOn(s, Overlapping(u1, u2));
    OneStep(before, Write(1, Written));
    ReachableOn(before, [Write(1, Written)]);
    BehindByOne(after, s.mem.log, u1, u2);
  }

  lemma BehindByOne(s: State, log: seq<Update>, u1: Update, u2: Update)
    requires Reachable(s) && s.boot == Serving && s.mem.log == log + [u1, u2] && s.cut == Some(|log| + 1)
    ensures FileIsCurrent(s) <==> Replay(s.mem.start, log + [u1]) == Replay(s.mem.start, log + [u1, u2])
  {
    ReachableInv(s);
    FileIsCurrentMeans(s);
    assert s.mem.log[..s.cut.value] == log + [u1];
  }

  // ---------------------------------------------------------------- how many at once

  /** Finite requests to the single-metric handler, at most n under way at once,
      whose writes succeed. */
  predicate Orderly(s: State, a: Step, n: nat) {
    match a
    case Crash(_) => false
    case Lock(_, u, single) => |Busy(s)| < n && single && FiniteUpdate(u)
    case Write(_, io) => io == Written
    case _ => true
  }

  predicate RunsOrderly(s: State, run: seq<Step>, n: nat)
    requires CanRun(s, run)
    decreases |run|
  {
    run == [] || (Orderly(s, run[0], n) && RunsOrderly(Next(s, run[0]), run[1..], n))
  }

  lemma {:induction false} OrderlyAppend(s: State, r1: seq<Step>, r2: seq<Step>, n: nat)
    requires CanRun(s, r1) && RunsOrderly(s, r1, n) && CanRun(After(s, r1), r2) && RunsOrderly(After(s, r1), r2, n)
    requires CanRun(s, r1 + r2)
    ensures RunsOrderly(s, r1 + r2, n)
    decreases |r1|
  {
    if r1 == [] {
      assert r1 + r2 == r2;
    } else {
      assert (r1 + r2)[0] == r1[0] && (r1 + r2)[1..] == r1[1..] + r2;
      OrderlyAppend(Next(s, r1[0]), r1[1..], r2, n);
    }
  }

  lemma OrderlyConcat(s: State, r1: seq<Step>, r2: seq<Step>, n: nat)
    requires CanRun(s, r1) && RunsOrderly(s, r1, n) && CanRun(After(s, r1), r2) && RunsOrderly(After(s, r1), r2, n)
    ensures CanRun(s, r1 + r2) && After(s, r1 + r2) == After(After(s, r1), r2) && RunsOrderly(s, r1 + r2, n)
  {
    RunConcat(s, r1, r2);
    OrderlyAppend(s, r1, r2, n);
  }

  /** Steps that need no permission. */
  predicate Plain(run: seq<Step>) {
    forall i :: 0 <= i < |run| ==> !run[i].Lock? && !run[i].Crash? && (run[i].Write? ==> run[i].io == Written)
  }

  lemma {:induction false} PlainIsOrderly(s: State, run: seq<Step>, n: nat)
    requires CanRun(s, run) && Plain(run)
    ensures RunsOrderly(s, run, n)
    decreases |run|
  {
    if run != [] {
      PlainIsOrderly(Next(s, run[0]), run[1..], n);
    }
  }

  lemma RequestIsOrderly(s: State, t: nat, u: Update, n: nat)
    requires CanRun(s, RequestSteps(t, u)) && |Busy(s)| < n && FiniteUpdate(u)
    ensures RunsOrderly(s, RequestSteps(t, u), n)
  {
    var run := RequestSteps(t, u);
    assert Plain(run[1..]);
    PlainIsOrderly(Next(s, run[0]), run[1..], n);
  }

  // at most one

  lemma OrderlyIsOneByOne(s: State, a: Step, n: nat)
    requires Orderly(s, a, n) && n <= 1
    ensures OneByOne(s, a)
  {
    if a.Lock? {
      assert |Busy(s)| == 0;
    }
  }

  lemma {:induction false} OrderlyRunIsOneByOne(s: State, run: seq<Step>, n: nat)
    requires CanRun(s, run) && RunsOrderly(s, run, n) && n <= 1
    ensures RunsOneByOne(s, run)
    decreases |run|
  {
    if run != [] {
      OrderlyIsOneByOne(s, run[0], n);
      OrderlyRunIsOneByOne(Next(s, run[0]), run[1..], n);
    }
  }

  /** What is known of the last request of an orderly run. */
  predicate Good(r: Option<Request>) {
    r.Some? ==> r.value.single && (r.value.io.Some? ==> r.value.io == Some(Written))
  }

  lemma {:induction false} OrderlyRunIsGood(s: State, run: seq<Step>, n: nat, r: Option<Request>)
    requires CanRun(s, run) && RunsOrderly(s, run, n) && Good(r)
    ensures Good(NoteAll(r, run))
    decreases |run|
  {
    if run != [] {
      OrderlyRunIsGood(Next(s, run[0]), run[1..], n, Note(r, run[0]));
    }
  }

  predicate UpdateOf(p: Phase, u: Update) {
    (p.Holding? || p.Loaded?) && p.u == u
  }

  /** Every gauge is finite, in the map or on its way there. */
  ghost predicate FiniteOk(s: State) {
    AllFinite(Entries(s.mem.gauges)) && forall t, u :: t in s.threads && UpdateOf(s.threads[t], u) ==> FiniteUpdate(u)
  }

  lemma FinitePut(s: State, a: Step)
    requires Inv(s) && Enabled(s, a) && a.Put? && FiniteOk(s)
    ensures FiniteOk(Next(s, a))
  {
    var p := PhaseOf(s, a.t);
    assert UpdateOf(s.threads[a.t], p.u);
    MovePhase(s, a);
    PutShape(s, a);
    PutStaysFinite(s.mem, p.u, if p.Loaded? then p.cur else 0);
  }

  lemma FiniteMove(s: State, a: Step, n: nat)
    requires Inv(s) && Enabled(s, a) && Orderly(s, a, n) && OfGoroutine(a) && !a.Put? && FiniteOk(s)
    ensures FiniteOk(Next(s, a))
  {
    GoroutineFrame(s, a);
    MovePhase(s, a);
    UpdatesMove(s, a);
    if a.Load? {
      assert UpdateOf(s.threads[a.t], PhaseOf(s, a.t).u);
    }
  }

  lemma UpdatesMove(s: State, a: Step)
    requires Enabled(s, a) && OfGoroutine(a) && !a.Put?
    ensures forall u :: UpdateOf(PhaseOf(Next(s, a), a.t), u) ==>
      (a.Lock? && u == a.u) || (a.Load? && UpdateOf(PhaseOf(s, a.t), u))
  {
  }

  lemma {:induction false} OrderlyRunStaysFinite(s: State, run: seq<Step>, n: nat)
    requires Inv(s) && CanRun(s, run) && RunsOrderly(s, run, n) && s.boot == Serving && FiniteOk(s)
    ensures FiniteOk(After(s, run))
    decreases |run|
  {
    if run != [] {
      var a := run[0];
      ServingGoesOn(s, a);
      if a.Put? { FinitePut(s, a); } else { FiniteMove(s, a, n); }
      StepKeepsInv(s, a);
      OrderlyRunStaysFinite(Next(s, a), run[1..], n);
    }
  }

  lemma QuietIsNotBusy(s: State)
    requires Quiet(s)
    ensures Busy(s) == {}
  {
  }

  /** A current state between requests. */
  ghost predicate Rested(s: State) {
    && Reachable(s) && s.mode == SyncHandler && s.boot == Serving && Quiet(s)
    && FileIsCurrent(s) && AllFinite(Entries(s.mem.gauges))
  }

  lemma OneAtATimeIsFresh(s: State, run: seq<Step>, n: nat)
    requires Rested(s) && n <= 1
    requires CanRun(s, run) && RunsOrderly(s, run, n) && Quiet(After(s, run))
    ensures FileIsCurrent(After(s, run))
  {
    ReachableInv(s);
    QuietIsNotBusy(s);
    QuietIsNotBusy(After(s, run));
    OrderlyRunIsOneByOne(s, run, n);
    OrderlyRunIsGood(s, run, n, None);
    OrderlyRunStaysFinite(s, run, n);
    SyncFlushFollowsTheLastRequest(s, run);
  }

  // two

  const EARLIER: Update := SetGauge("Alloc", Finite(0.0))
  const LATER: Update := SetGauge("Alloc", Finite(1.0))

  lemma OneRequest(s: State, t: nat, u: Update, n: nat) returns (run: seq<Step>, s': State, doc: Document)
    requires Unlocked(s) && t != DUMPER && PhaseOf(s, t) == Idle && |Busy(s)| < n
    requires FiniteUpdate(u) && AllFinite(Entries(s.mem.gauges))
    ensures CanRun(s, run) && After(s, run) == s' && RunsOrderly(s, run, n)
    ensures Unlocked(s') && s'.mem.log == s.mem.log + [u] && AllFinite(Entries(s'.mem.gauges))
    ensures s'.threads == s.threads[t := Writing(doc, |s'.mem.log|)]
  {
    run := RequestSteps(t, u);
    s', doc := RequestPart(s, t, u);
    RequestIsOrderly(s, t, u, n);
  }

  lemma OneIsBusy(s: State, s': State, doc: Document, k: nat)
    requires Quiet(s) && s'.threads == s.threads[1 := Writing(doc, k)]
    ensures |Busy(s')| == 1
  {
    assert Busy(s') == {1};
  }

  lemma TwoRequestsAreOrderly(s: State, n: nat)
    returns (run: seq<Step>, s1: State, s2: State, doc1: Document, doc2: Document)
    requires Unlocked(s) && Quiet(s) && AllFinite(Entries(s.mem.gauges)) && n >= 2
    ensures CanRun(s, run) && After(s, run) == s2 && RunsOrderly(s, run, n)
    ensures s1.mem.log == s.mem.log + [EARLIER] && s2.mem.log == s1.mem.log + [LATER] && s2.boot == Serving
    ensures s1.threads == s.threads[1 := Writing(doc1, |s1.mem.log|)]
    ensures s2.threads == s1.threads[2 := Writing(doc2, |s2.mem.log|)]
  {
    var r1, r2;
    QuietIsNotBusy(s);
    r1, s1, doc1 := OneRequest(s, 1, EARLIER, n);
    OneIsBusy(s, s1, doc1, |s1.mem.log|);
    r2, s2, doc2 := OneRequest(s1, 2, LATER, n);
    OrderlyConcat(s, r1, r2, n);
    run := r1 + r2;
  }

  lemma TwoWrites(s: State, run: seq<Step>, mid: State, doc1: Document, doc2: Document, k: nat, n: nat)
    returns (all: seq<Step>)
    requires CanRun(s, run) && RunsOrderly(s, run, n) && After(s, run) == mid
    requires Quiet(s) && mid.threads == s.threads[1 := Writing(doc1, k)][2 := Writing(doc2, k + 1)]
    ensures CanRun(s, all) && RunsOrderly(s, all, n) && Quiet(After(s, all))
    ensures After(s, all).mem == mid.mem && After(s, all).cut == Some(k) && After(s, all).file == Some(doc1)
    ensures After(s, all).boot == mid.boot
  {
    var tail := [Write(2, Written)] + [Write(1, Written)];
    var m1, end := SecondThenFirst(s, mid, doc1, doc2, k);
    OneStep(mid, Write(2, Written));
    OneStep(m1, Write(1, Written));
    RunConcat(mid, [Write(2, Written)], [Write(1, Written)]);
    assert Plain(tail);
    PlainIsOrderly(mid, tail, n);
    OrderlyConcat(s, run, tail, n);
    all := run + tail;
  }

  lemma StaleIsNotCurrent(s: State, before: seq<Update>)
    requires Reachable(s) && s.boot == Serving
    requires s.mem.log == before + [EARLIER] + [LATER] && s.cut == Some(|before| + 1)
    ensures !FileIsCurrent(s)
  {
    assert before + [EARLIER] + [LATER] == before + [EARLIER, LATER];
    BehindByOne(s, before, EARLIER, LATER);
    ReplayOne(s.mem.start, before, EARLIER);
    ReplayOne(s.mem.start, before + [EARLIER], LATER);
    assert Replay(s.mem.start, before + [EARLIER]).gauges["Alloc"] == Finite(0.0);
    assert Replay(s.mem.start, before + [EARLIER, LATER]).gauges["Alloc"] == Finite(1.0);
  }

  lemma TwoAtOnceCanBeStale(s: State, n: nat) returns (run: seq<Step>)
    requires Rested(s) && n >= 2
    ensures CanRun(s, run) && RunsOrderly(s, run, n) && Quiet(After(s, run)) && !FileIsCurrent(After(s, run))
  {
    ReachableInv(s);
    QuietIsUnlocked(s);
    var part, first, mid, doc1, doc2 := TwoRequestsAreOrderly(s, n);
    run := TwoWrites(s, part, mid, doc1, doc2, |s.mem.log| + 1, n);
    ReachableOn(s, run);
    StaleIsNotCurrent(After(s, run), s.mem.log);
  }

  lemma QuietIsUnlocked(s: State)
    requires Inv(s) && s.mode == SyncHandler && s.boot == Serving && Quiet(s)
    ensures Unlocked(s)
  {
    forall t: nat ensures t !in s.readers && s.writer != Some(t) {
      LockFacts(s, t);
    }
    assert s.writer != Some(s.writer.GetOr(0));
  }

  /** From any current state between requests: finite single-metric requests,
      at most n at once and with successful writes, keep the file current, whenever
      they are all over, iff n is at most one. */
  lemma SyncFlushIsFreshIffOneAtATime(s: State, n: nat)
    requires Rested(s)
    ensures (forall run :: CanRun(s, run) && RunsOrderly(s, run, n) && Quiet(After(s, run)) ==>
               FileIsCurrent(After(s, run)))
       <==> n <= 1
  {
    if n <= 1 {
      forall run | CanRun(s, run) && RunsOrderly(s, run, n) && Quiet(After(s, run))
        ensures FileIsCurrent(After(s, run))
      {
        OneAtATimeIsFresh(s, run, n);
      }
    } else {
      var run := TwoAtOnceCanBeStale(s, n);
    }
  }

  lemma FirstProcess() returns (s: State)
    ensures Reachable(s) && Unlocked(s) && s.threads == map[] && s.mem == FRESH
  {
    var s0 := State(SyncHandler, false, true, Starting, FRESH, None, {}, map[], None, [], [], [], None, []);
    assert CanRun(s0, []) && After(s0, []) == s0 && Initial(s0);
    OneStep(s0, SkipRestore);
    ReachableOn(s0, [SkipRestore]);
    s := Next(s0, SkipRestore);
  }

  lemma WriteRests(s: State, doc: Document) returns (s': State)
    requires Reachable(s) && Unlocked(s)
    requires s.threads == map[][1 := Writing(doc, |s.mem.log|)] && AllFinite(Entries(s.mem.gauges))
    ensures Rested(s')
  {
    OneStep(s, Write(1, Written));
    ReachableOn(s, [Write(1, Written)]);
    s' := Next(s, Write(1, Written));
    ReachableInv(s');
    FileIsCurrentMeans(s');
  }

  /** There are such states: a first process without a file, after one request. */
  lemma SomeStateIsRested() returns (s: State)
    ensures Rested(s)
  {
    var s1 := FirstProcess();
    QuietIsNotBusy(s1);
    var run, s2, doc := OneRequest(s1, 1, EARLIER, 1);
    ReachableOn(s1, run);
    s := WriteRests(s2, doc);
  }

  // ---------------------------------------------------------------- batches

  /** The goroutine is at no update that will be flushed. */
  predicate WillNotFlush(p: Phase) {
    match p
    case Idle => true
    case Holding(_, single) => !single
    case Loaded(_, single, _) => !single
    case Saving(_, single) => !single
    case Saved(single) => !single
    case Getting(_, _) => true
    case Got => true
    case _ => false
  }

  predicate NothingToFlush(s: State) {
    s.mode == SyncHandler && forall t :: t in s.threads ==> WillNotFlush(s.threads[t])
  }

  predicate NoSingles(run: seq<Step>) {
    forall i :: 0 <= i < |run| && run[i].Lock? ==> !run[i].single
  }

  lemma BatchUpdateStep(s: State, a: Step)
    requires Enabled(s, a) && NothingToFlush(s) && OfUpdate(a) && (a.Lock? ==> !a.single)
    ensures NothingToFlush(Next(s, a)) && Next(s, a).file == s.file
  {
  }

  lemma BatchStep(s: State, a: Step)
    requires Enabled(s, a) && NothingToFlush(s) && (a.Lock? ==> !a.single)
    ensures NothingToFlush(Next(s, a)) && Next(s, a).file == s.file
  {
    if OfUpdate(a) { BatchUpdateStep(s, a); }
  }

  /** With interval zero no update but one of the single-metric handler ever
      reaches the file: over every run of other updates it stays as it is, crashes
      included. */
  lemma {:induction false} OtherUpdatesNeverFlush(s: State, run: seq<Step>)
    requires NothingToFlush(s) && CanRun(s, run) && NoSingles(run)
    ensures After(s, run).file == s.file
    decreases |run|
  {
    if run != [] {
      BatchStep(s, run[0]);
      OtherUpdatesNeverFlush(Next(s, run[0]), run[1..]);
    }
  }

  lemma {:induction false} PlainIsOneByOne(s: State, run: seq<Step>)
    requires CanRun(s, run) && Plain(run)
    ensures RunsOneByOne(s, run)
    decreases |run|
  {
    if run != [] {
      PlainIsOneByOne(Next(s, run[0]), run[1..]);
    }
  }

  lemma AfterTheLockIsPlain(t: nat, u: Update, single: bool)
    ensures UpdateSteps(t, u, single)[0] == Lock(t, u, single) && Plain(UpdateSteps(t, u, single)[1..])
  {
  }

  /** One update of a batch, alone: the file is as it was when it is over, and so
      no longer current unless the update changed nothing. */
  lemma BatchUpdateLeavesTheFileBehind(s: State, u: Update) returns (run: seq<Step>)
    requires Rested(s)
    ensures CanRun(s, run) && RunsOneByOne(s, run) && Quiet(After(s, run))
    ensures After(s, run).file == s.file && After(s, run).mem.log == s.mem.log + [u]
    ensures FileIsCurrent(After(s, run)) <==> Apply(Contents(s.mem), u) == Contents(s.mem)
  {
    ReachableInv(s);
    QuietIsUnlocked(s);
    QuietIsNotBusy(s);
    UpdateApplies(s.mem, u);
    run := UpdateSteps(1, u, false);
    var s' := UpdatePart(s, 1, u, false);
    if FileIsCurrent(s') {
      ImageIsUnique(s.file.value, Contents(s.mem), Contents(s'.mem));
    }
    AfterTheLockIsPlain(1, u, false);
    PlainIsOneByOne(Next(s, run[0]), run[1..]);
  }
}
