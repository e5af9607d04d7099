/** Runs of the server process: request handlers and the dumper share the two
    maps under one RWMutex, the snapshot is encoded under the read lock and
    written after it is released, and the process can die at any point. */
module ServerRuns {
  import opened Numbers
  import opened Options
  import opened Updates
  import opened RetryLoops
  import opened Storage

  /** Who may flush: the dumper goroutine for a positive StoreInterval, the
      single-metric JSON handler for zero, nobody for a negative one. */
  datatype Mode = Dumper | SyncHandler | NoFlush

  function ModeOf(storeInterval: int): Mode {
    if storeInterval > 0 then Dumper else if storeInterval == 0 then SyncHandler else NoFlush
  }

  /** Where one goroutine stands. cut is the length of the log when the read
      lock was taken. */
  datatype Phase =
    | Idle
    | Holding(u: Update, single: bool)               // Lock taken
    | Loaded(u: Update, single: bool, cur: Int64)    // old counter value read
    | Saving(u: Update, single: bool)                // map written, row not yet
    | Saved(single: bool)                            // saveDB has returned, lock still held
    | MustFlush                                      // update done, sync flush to come
    | Marshalling(cut: nat)                          // RLock taken
    | HalfRead(g: GoMap<Float64>, cut: nat)          // gauges encoded
    | Encoded(doc: Option<Document>, cut: nat)       // counters encoded too
    | Writing(bytes: Document, cut: nat)             // RLock released
    | Getting(q: Query, cut: nat)                    // RLock taken by a Get
    | Got                                            // value read

  /** The start of the process: restore runs before any goroutine is started. */
  datatype Boot = Starting | RestoreLocked | HalfRestored | Restored | Serving

  /** What a Get answered; cut is the length of the log when it took the lock. */
  datatype Answer = Answer(q: Query, reading: Reading, cut: nat)

  /** The two maps, with their history: what they held when the process began
      serving, and the updates since, in the order of their lock. */
  datatype Memory = Memory(gauges: GoMap<Float64>, counters: GoMap<Int64>, start: Store, log: seq<Update>)

  datatype State = State(
    mode: Mode,
    restore: bool,        // the Restore flag
    waits: bool,          // goroutines start only after restore, as main does
    boot: Boot,
    mem: Memory,
    writer: Option<nat>,  // the RWMutex: who holds Lock, who holds RLock
    readers: set<nat>,
    threads: map<nat, Phase>,
    file: Option<Document>,
    rows: seq<Row>,       // the journal in the database
    // history
    firstRows: seq<Row>,  // the journal when the process began
    saves: Saves,         // the error of each save since
    cut: Option<nat>,     // the prefix of the log that the file holds, if it holds one
    answers: seq<Answer>)

  datatype Step =
    | SkipRestore
    | RestoreLock
    | RestoreGauges
    | RestoreCounters
    | RestoreUnlock
    | Lock(t: nat, u: Update, single: bool)
    | Load(t: nat)
    | Put(t: nat)
    | Save(t: nat, error: Option<RetryError>)
    | Unlock(t: nat)
    | FlushLock(t: nat)
    | EncodeGauges(t: nat)
    | EncodeCounters(t: nat)
    | FlushUnlock(t: nat)
    | Write(t: nat, io: WriteOutcome)
    | GetLock(t: nat, q: Query)
    | GetRead(t: nat)
    | GetUnlock(t: nat)
    | Crash(torn: bool)

  const DUMPER: nat := 0

  function PhaseOf(s: State, t: nat): Phase {
    if t in s.threads then s.threads[t] else Idle
  }

  function Contents(m: Memory): Store {
    Store(Entries(m.gauges), Entries(m.counters))
  }

  /** The store after the first k updates. */
  function Prefix(m: Memory, k: nat): Store
    requires k <= |m.log|
  {
    Replay(m.start, m.log[..k])
  }

  predicate Running(s: State) {
    s.boot == Serving || !s.waits
  }

  predicate RestoreHoldsLock(b: Boot) {
    b.RestoreLocked? || b.HalfRestored? || b.Restored?
  }

  predicate Enabled(s: State, a: Step) {
    match a
    case SkipRestore => s.boot == Starting && (!s.restore || s.file.None? || s.file.value.Malformed?)
    case RestoreLock => s.boot == Starting && s.restore && s.file.Some? && s.file.value.Json? && s.writer.None?
    case RestoreGauges => s.boot == RestoreLocked && s.file.Some?
    case RestoreCounters => s.boot == HalfRestored && s.file.Some?
    case RestoreUnlock => s.boot == Restored
    case Lock(t, u, single) =>
      && Running(s) && t != DUMPER && PhaseOf(s, t) == Idle
      && s.writer.None? && s.readers == {} && !RestoreHoldsLock(s.boot)
    case Load(t) => PhaseOf(s, t).Holding? && PhaseOf(s, t).u.AddCounter?
    case Put(t) => (PhaseOf(s, t).Holding? && PhaseOf(s, t).u.SetGauge?) || PhaseOf(s, t).Loaded?
    case Save(t, error) => PhaseOf(s, t).Saving?
    case Unlock(t) => PhaseOf(s, t).Saved?
    case FlushLock(t) =>
      && Running(s) && s.writer.None?
      && ((s.mode == Dumper && t == DUMPER && PhaseOf(s, t) == Idle) || PhaseOf(s, t) == MustFlush)
    case EncodeGauges(t) => PhaseOf(s, t).Marshalling?
    case EncodeCounters(t) => PhaseOf(s, t).HalfRead?
    case FlushUnlock(t) => PhaseOf(s, t).Encoded?
    case Write(t, io) => PhaseOf(s, t).Writing?
    case GetLock(t, q) =>
      Running(s) && t != DUMPER && PhaseOf(s, t) == Idle && s.writer.None?
    case GetRead(t) => PhaseOf(s, t).Getting?
    case GetUnlock(t) => PhaseOf(s, t) == Got
    case Crash(torn) => true
  }

  function To(s: State, t: nat, p: Phase): State {
    s.(threads := s.threads[t := p])
  }

  predicate NilFor(m: Memory, u: Update) {
    HitsNil(u, m.gauges.NilMap?, m.counters.NilMap?)
  }

  /** The map write; cur is the counter value that was read before. */
  function PutInto(m: Memory, u: Update, cur: Int64): Memory
    requires !NilFor(m, u)
  {
    match u
    case SetGauge(n, v) => m.(gauges := Made(m.gauges.m[n := v]), log := m.log + [u])
    case AddCounter(n, d) => m.(counters := Made(m.counters.m[n := Wrap64(cur + d)]), log := m.log + [u])
  }

  /** Writing to a nil map panics; the deferred Unlock then runs and the
      goroutine is gone. */
  function Putting(s: State, t: nat, p: Phase): State
    requires p.Holding? || p.Loaded?
  {
    if NilFor(s.mem, p.u) then To(s, t, Idle).(writer := None)
    else To(s, t, Saving(p.u, p.single)).(mem := PutInto(s.mem, p.u, if p.Loaded? then p.cur else 0))
  }

  /** saveDB, which adds a row unless it fails. */
  function Journalling(s: State, t: nat, p: Phase, error: Option<RetryError>): State
    requires p.Saving?
  {
    To(s, t, Saved(p.single)).(
      rows := if error.None? then s.rows + [RowOf(p.u)] else s.rows,
      saves := s.saves + [error])
  }

  function WithRestoredGauges(m: Memory, d: Document): Memory {
    m.(gauges := DecodeGauges(d))
  }

  function WithRestoredMaps(m: Memory, d: Document): Memory {
    var c := DecodeCounters(d);
    Memory(m.gauges, c, Store(Entries(m.gauges), Entries(c)), [])
  }

  function Next(s: State, a: Step): State
    requires Enabled(s, a)
  {
    match a
    case SkipRestore => s.(boot := Serving)
    case RestoreLock => s.(boot := RestoreLocked)
    case RestoreGauges => s.(boot := HalfRestored, mem := WithRestoredGauges(s.mem, s.file.value))
    case RestoreCounters => s.(boot := Restored, mem := WithRestoredMaps(s.mem, s.file.value), cut := Some(0))
    case RestoreUnlock => s.(boot := Serving)
    case Lock(t, u, single) => To(s, t, Holding(u, single)).(writer := Some(t))
    case Load(t) =>
      var p := PhaseOf(s, t);
      To(s, t, Loaded(p.u, p.single, CounterOf(Contents(s.mem), p.u.name)))
    case Put(t) => Putting(s, t, PhaseOf(s, t))
    case Save(t, error) => Journalling(s, t, PhaseOf(s, t), error)
    case Unlock(t) =>
      To(s, t, if s.mode == SyncHandler && PhaseOf(s, t).single then MustFlush else Idle).(writer := None)
    case FlushLock(t) => To(s, t, Marshalling(|s.mem.log|)).(readers := s.readers + {t})
    case EncodeGauges(t) => To(s, t, HalfRead(s.mem.gauges, PhaseOf(s, t).cut))
    case EncodeCounters(t) =>
      var p := PhaseOf(s, t);
      To(s, t, Encoded(Encode(p.g, s.mem.counters), p.cut))
    case FlushUnlock(t) =>
      var p := PhaseOf(s, t);
      To(s, t, if p.doc.None? then Idle else Writing(p.doc.value, p.cut)).(readers := s.readers - {t})
    case Write(t, io) =>
      var p := PhaseOf(s, t);
      var s1 := To(s, t, Idle);
      (match io
       case Written => s1.(file := Some(p.bytes), cut := Some(p.cut))
       case Refused => s1
       case Torn => s1.(file := Some(Malformed), cut := None))
    case GetLock(t, q) => To(s, t, Getting(q, |s.mem.log|)).(readers := s.readers + {t})
    case GetRead(t) =>
      var p := PhaseOf(s, t);
      To(s, t, Got).(answers := s.answers + [Answer(p.q, ReadingOf(p.q, Contents(s.mem)), p.cut)])
    case GetUnlock(t) => To(s, t, Idle).(readers := s.readers - {t})
    case Crash(torn) => Reborn(s, torn && exists t :: t in s.threads && s.threads[t].Writing?)
  }

  /** A new process. A write under way at the crash may leave half a file. */
  function Reborn(s: State, torn: bool): State {
    State(s.mode, s.restore, s.waits, Starting, FRESH, None, {}, map[],
          if torn then Some(Malformed) else s.file, s.rows, s.rows, [], None, [])
  }

  const FRESH: Memory := Memory(Made(map[]), Made(map[]), EMPTY, [])

  predicate CanRun(s: State, run: seq<Step>)
    decreases |run|
  {
    run == [] || (Enabled(s, run[0]) && CanRun(Next(s, run[0]), run[1..]))
  }

  function After(s: State, run: seq<Step>): State
    requires CanRun(s, run)
    decreases |run|
  {
    if run == [] then s else After(Next(s, run[0]), run[1..])
  }

  /** A file this program wrote, whole or torn. */
  predicate OwnFile(file: Option<Document>) {
    file.None? || file.value.Malformed?
    || (file.value.gauges.Some? && file.value.counters.Some? && !file.value.mismatch)
  }

  predicate Initial(s: State) {
    && OwnFile(s.file)
    && s == State(s.mode, s.restore, true, Starting, FRESH, None, {}, map[], s.file, s.rows, s.rows, [], None, [])
  }

  // ---------------------------------------------------------------- invariant

  predicate WriterPhase(p: Phase) {
    p.Holding? || p.Loaded? || p.Saving? || p.Saved?
  }

  predicate ReaderPhase(p: Phase) {
    p.Marshalling? || p.HalfRead? || p.Encoded? || p.Getting? || p.Got?
  }

  predicate FlushPhase(p: Phase) {
    p.Marshalling? || p.HalfRead? || p.Encoded? || p.Writing?
  }

  /** The document holds exactly the store st. */
  predicate Images(doc: Document, st: Store) {
    doc.Json? && !doc.mismatch && DecodeGauges(doc) == Made(st.gauges) && DecodeCounters(doc) == Made(st.counters)
  }

  predicate PhaseOk(m: Memory, mode: Mode, cut: Option<nat>, t: nat, p: Phase) {
    match p
    case Idle => true
    case Holding(_, _) => t != DUMPER
    case Loaded(u, _, cur) => t != DUMPER && u.AddCounter? && cur == CounterOf(Contents(m), u.name)
    case Saving(u, _) => t != DUMPER && m.log != [] && u == m.log[|m.log| - 1]
    case Saved(_) => t != DUMPER
    case MustFlush => t != DUMPER && mode == SyncHandler
    case Marshalling(k) => k == |m.log| && MayFlush(mode, cut, t, k)
    case HalfRead(g, k) => k == |m.log| && MayFlush(mode, cut, t, k) && g == m.gauges
    case Encoded(doc, k) => k == |m.log| && MayFlush(mode, cut, t, k) && doc == Encode(m.gauges, m.counters)
    case Writing(bytes, k) => k <= |m.log| && MayFlush(mode, cut, t, k) && Images(bytes, Prefix(m, k))
    case Getting(_, k) => k == |m.log|
    case Got => true
  }

  /** Goroutine t may hold a snapshot of the first k updates. */
  predicate MayFlush(mode: Mode, cut: Option<nat>, t: nat, k: nat) {
    && mode != NoFlush
    && (mode == Dumper ==> t == DUMPER && (cut.Some? ==> cut.value <= k))
    && (mode == SyncHandler ==> t != DUMPER)
  }

  ghost predicate LocksOk(s: State) {
    && (forall t :: t in s.threads && WriterPhase(s.threads[t]) ==> s.writer == Some(t))
    && (s.writer.Some? ==> s.writer.value in s.threads && WriterPhase(s.threads[s.writer.value]))
    && (forall t :: t in s.threads && ReaderPhase(s.threads[t]) ==> t in s.readers)
    && (forall t :: t in s.readers ==> t in s.threads && ReaderPhase(s.threads[t]))
    && (s.writer.Some? ==> s.readers == {})
    && (s.boot != Serving ==> s.threads == map[])
  }

  predicate AnswerOk(m: Memory, a: Answer) {
    a.cut <= |m.log| && a.reading == ReadingOf(a.q, Prefix(m, a.cut))
  }

  predicate CutOk(m: Memory, file: Option<Document>, cut: Option<nat>) {
    cut.Some? ==> cut.value <= |m.log| && file.Some? && Images(file.value, Prefix(m, cut.value))
  }

  predicate BootOk(s: State) {
    && (s.boot != Serving && s.boot != Restored ==> s.mem.log == [] && s.answers == [])
    && (s.boot != HalfRestored ==> Contents(s.mem) == Replay(s.mem.start, s.mem.log))
    && (s.boot.RestoreLocked? || s.boot.HalfRestored? ==> s.file.Some? && s.file.value.Json?)
    && (s.boot.HalfRestored? ==> s.mem.gauges == DecodeGauges(s.file.value))
    && (s.boot.Starting? || s.boot.RestoreLocked? || s.boot.HalfRestored? ==> s.cut.None?)
    && (s.boot.Restored? ==> s.mem.log == [] && s.answers == [])
    && ((s.boot.Restored? || s.boot.Serving?) && s.restore && s.file.Some? && s.file.value.Json? ==> s.cut.Some?)
  }

  ghost predicate ThreadsOk(s: State) {
    forall t :: t in s.threads ==> PhaseOk(s.mem, s.mode, s.cut, t, s.threads[t])
  }

  ghost predicate AnswersOk(s: State) {
    forall i :: 0 <= i < |s.answers| ==> AnswerOk(s.mem, s.answers[i])
  }

  ghost predicate Inv(s: State) {
    && s.waits
    && LocksOk(s)
    && OwnFile(s.file)
    && s.mem.gauges.Made? && s.mem.counters.Made?
    && BootOk(s)
    && CutOk(s.mem, s.file, s.cut)
    && ThreadsOk(s)
    && AnswersOk(s)
  }

  lemma InitKeepsInv(s: State)
    requires Initial(s)
    ensures Inv(s)
  {
  }

  lemma BootKeepsInv(s: State, a: Step)
    requires Inv(s) && Enabled(s, a)
    requires a.SkipRestore? || a.RestoreLock? || a.RestoreGauges? || a.RestoreCounters? || a.RestoreUnlock?
    ensures Inv(Next(s, a))
  {
    if a.RestoreCounters? {
      var d := s.file.value;
      assert Images(d, Contents(Next(s, a).mem));
    }
  }

  predicate OfGoroutine(a: Step) {
    !(a.SkipRestore? || a.RestoreLock? || a.RestoreGauges? || a.RestoreCounters? || a.RestoreUnlock? || a.Crash?)
  }

  lemma LockFacts(s: State, t: nat)
    requires LocksOk(s)
    ensures WriterPhase(PhaseOf(s, t)) <==> s.writer == Some(t)
    ensures ReaderPhase(PhaseOf(s, t)) <==> t in s.readers
    ensures ReaderPhase(PhaseOf(s, t)) ==> s.writer.None?
    ensures PhaseOf(s, t) != Idle ==> s.boot == Serving
  {
  }

  /** How a goroutine's step changes its phase and the lock. */
  lemma MovePhase(s: State, a: Step)
    requires Enabled(s, a) && OfGoroutine(a)
    ensures var s' := Next(s, a); s'.threads == s.threads[a.t := PhaseOf(s', a.t)] && s'.boot == s.boot
  {
    if OfUpdate(a) { UpdateMovesPhase(s, a); }
  }

  predicate OfUpdate(a: Step) {
    a.Lock? || a.Load? || a.Put? || a.Save? || a.Unlock?
  }

  lemma UpdateMovesPhase(s: State, a: Step)
    requires Enabled(s, a) && OfUpdate(a)
    ensures var s' := Next(s, a); s'.threads == s.threads[a.t := PhaseOf(s', a.t)] && s'.boot == s.boot
  {
  }

  ghost predicate WriterMoves(s: State, t: nat, s': State) {
    var p := PhaseOf(s', t);
    && s'.writer == (if WriterPhase(p) then Some(t) else if WriterPhase(PhaseOf(s, t)) then None else s.writer)
    && (WriterPhase(p) ==> WriterPhase(PhaseOf(s, t)) || (s.writer.None? && s.readers == {}))
  }

  ghost predicate ReaderMoves(s: State, t: nat, s': State) {
    var p := PhaseOf(s', t);
    && s'.readers == (if ReaderPhase(p) then s.readers + {t} else s.readers - {t})
    && (ReaderPhase(p) ==> s.writer.None?)
  }

  lemma MoveWriter(s: State, a: Step)
    requires Enabled(s, a) && OfGoroutine(a)
    requires WriterPhase(PhaseOf(s, a.t)) <==> s.writer == Some(a.t)
    ensures WriterMoves(s, a.t, Next(s, a))
  {
  }

  lemma MoveReader(s: State, a: Step)
    requires Enabled(s, a) && OfGoroutine(a)
    requires ReaderPhase(PhaseOf(s, a.t)) <==> a.t in s.readers
    requires ReaderPhase(PhaseOf(s, a.t)) ==> s.writer.None?
    ensures ReaderMoves(s, a.t, Next(s, a))
  {
    if OfUpdate(a) { UpdateMovesReader(s, a); } else if OfFlush(a) { FlushMovesReader(s, a); }
  }

  lemma UpdateMovesReader(s: State, a: Step)
    requires Enabled(s, a) && OfUpdate(a)
    requires ReaderPhase(PhaseOf(s, a.t)) <==> a.t in s.readers
    ensures ReaderMoves(s, a.t, Next(s, a))
  {
  }

  lemma FlushMovesReader(s: State, a: Step)
    requires Enabled(s, a) && OfFlush(a)
    requires ReaderPhase(PhaseOf(s, a.t)) <==> a.t in s.readers
    requires ReaderPhase(PhaseOf(s, a.t)) ==> s.writer.None?
    ensures ReaderMoves(s, a.t, Next(s, a))
  {
  }

  /** One goroutine moves to phase p, taking or releasing locks as p says. */
  lemma LocksMove(s: State, t: nat, p: Phase, s': State)
    requires LocksOk(s) && s.boot == Serving && s'.boot == Serving
    requires s'.threads == s.threads[t := p]
    requires PhaseOf(s', t) == p && WriterMoves(s, t, s') && ReaderMoves(s, t, s')
    ensures LocksOk(s')
  {
  }

  lemma LocksKept(s: State, a: Step)
    requires Inv(s) && Enabled(s, a) && OfGoroutine(a)
    ensures LocksOk(Next(s, a))
    ensures Next(s, a).threads == s.threads[a.t := PhaseOf(Next(s, a), a.t)]
    ensures Next(s, a).boot == Serving == s.boot
  {
    LockFacts(s, a.t);
    MovePhase(s, a);
    MoveWriter(s, a);
    MoveReader(s, a);
    var s' := Next(s, a);
    LocksMove(s, a.t, PhaseOf(s', a.t), s');
  }

  /** What a step of one goroutine other than the map write leaves alone. */
  lemma GoroutineFrame(s: State, a: Step)
    requires Inv(s) && Enabled(s, a) && OfGoroutine(a) && !a.Put?
    ensures var s' := Next(s, a);
      && s'.mem == s.mem && s'.mode == s.mode && s'.waits == s.waits
      && (!a.Write? ==> s'.file == s.file && s'.cut == s.cut)
      && (!a.GetRead? ==> s'.answers == s.answers)
  {
  }

  predicate OfFlush(a: Step) {
    a.FlushLock? || a.EncodeGauges? || a.EncodeCounters? || a.FlushUnlock?
  }

  lemma FlushPhaseKept(s: State, a: Step)
    requires Inv(s) && Enabled(s, a) && OfFlush(a)
    ensures var s' := Next(s, a); PhaseOk(s.mem, s.mode, s.cut, a.t, PhaseOf(s', a.t))
  {
    assert a.t in s.threads ==> PhaseOk(s.mem, s.mode, s.cut, a.t, s.threads[a.t]);
    if a.FlushUnlock? {
      SnapshotRoundTrip(s.mem.gauges, s.mem.counters);
      assert s.mem.log[..|s.mem.log|] == s.mem.log;
      LockFacts(s, a.t);
    }
  }

  lemma PhaseKept(s: State, a: Step)
    requires Inv(s) && Enabled(s, a) && OfGoroutine(a) && !a.Put?
    ensures var s' := Next(s, a); PhaseOk(s.mem, s.mode, s'.cut, a.t, PhaseOf(s', a.t))
  {
    if OfFlush(a) {
      FlushPhaseKept(s, a);
    }
  }

  lemma FileKept(s: State, a: Step)
    requires Inv(s) && Enabled(s, a) && a.Write?
    ensures var s' := Next(s, a); OwnFile(s'.file) && CutOk(s.mem, s'.file, s'.cut)
    ensures var s' := Next(s, a);
      forall t :: t in s.threads && t != a.t ==> PhaseOk(s.mem, s.mode, s'.cut, t, s.threads[t])
  {
    assert PhaseOk(s.mem, s.mode, s.cut, a.t, s.threads[a.t]);
  }

  lemma AnswerKept(s: State, a: Step)
    requires Inv(s) && Enabled(s, a) && a.GetRead?
    ensures AnswersOk(Next(s, a))
  {
    assert s.mem.log[..|s.mem.log|] == s.mem.log;
    LockFacts(s, a.t);
    assert PhaseOk(s.mem, s.mode, s.cut, a.t, s.threads[a.t]);
  }

  lemma ThreadsKept(s: State, a: Step)
    requires Inv(s) && Enabled(s, a) && OfGoroutine(a) && !a.Put?
    ensures ThreadsOk(Next(s, a))
  {
    MovePhase(s, a);
    GoroutineFrame(s, a);
    PhaseKept(s, a);
    if a.Write? { FileKept(s, a); }
  }

  lemma GoroutineKeepsInv(s: State, a: Step)
    requires Inv(s) && Enabled(s, a) && OfGoroutine(a) && !a.Put?
    ensures Inv(Next(s, a))
  {
    LocksKept(s, a);
    GoroutineFrame(s, a);
    ThreadsKept(s, a);
    if a.Write? { FileKept(s, a); }
    if a.GetRead? { AnswerKept(s, a); }
  }

  /** Adding an update to the log keeps every prefix that was there. */
  lemma PutKeepsOthers(m: Memory, u: Update, cur: Int64, mode: Mode, cut: Option<nat>, file: Option<Document>)
    requires !NilFor(m, u)
    ensures var m' := PutInto(m, u, cur);
      && (forall t, p :: PhaseOk(m, mode, cut, t, p) && !ReaderPhase(p) && !p.Loaded? && !p.Saving? ==>
            PhaseOk(m', mode, cut, t, p))
      && (forall a :: AnswerOk(m, a) ==> AnswerOk(m', a))
      && (CutOk(m, file, cut) ==> CutOk(m', file, cut))
  {
    assert forall k: nat :: k <= |m.log| ==> (m.log + [u])[..k] == m.log[..k];
  }

  /** s' is s after the map write u of goroutine t, which read cur before. */
  ghost predicate Puts(s: State, t: nat, u: Update, cur: Int64, s': State) {
    && !NilFor(s.mem, u)
    && s' == s.(mem := PutInto(s.mem, u, cur), threads := s'.threads)
    && s'.threads == s.threads[t := PhaseOf(s', t)] && PhaseOf(s', t).Saving? && PhaseOf(s', t).u == u
    && (u.AddCounter? ==> cur == CounterOf(Contents(s.mem), u.name))
  }

  lemma PutShape(s: State, a: Step)
    requires Inv(s) && Enabled(s, a) && a.Put?
    ensures var p := PhaseOf(s, a.t); Puts(s, a.t, p.u, if p.Loaded? then p.cur else 0, Next(s, a))
  {
    assert PhaseOk(s.mem, s.mode, s.cut, a.t, PhaseOf(s, a.t));
  }

  lemma PutKeepsThreads(s: State, t: nat, u: Update, cur: Int64, s': State)
    requires Inv(s) && Puts(s, t, u, cur, s') && LocksOk(s') && WriterPhase(PhaseOf(s, t))
    ensures ThreadsOk(s')
  {
    PutKeepsOthers(s.mem, u, cur, s.mode, s.cut, s.file);
    LockFacts(s, t);
    forall r | r in s'.threads ensures PhaseOk(s'.mem, s'.mode, s'.cut, r, s'.threads[r]) {
      LockFacts(s, r);
      LockFacts(s', r);
    }
  }

  lemma PutKeepsRest(s: State, t: nat, u: Update, cur: Int64, s': State)
    requires Inv(s) && Puts(s, t, u, cur, s') && s.boot == Serving
    ensures BootOk(s') && AnswersOk(s') && CutOk(s'.mem, s'.file, s'.cut)
    ensures s'.mem.gauges.Made? && s'.mem.counters.Made?
  {
    PutKeepsOthers(s.mem, u, cur, s.mode, s.cut, s.file);
    ReplayOne(s.mem.start, s.mem.log, u);
  }

  lemma PutKeepsInv(s: State, a: Step)
    requires Inv(s) && Enabled(s, a) && a.Put?
    ensures Inv(Next(s, a))
  {
    var p := PhaseOf(s, a.t);
    LocksKept(s, a);
    PutShape(s, a);
    PutKeepsThreads(s, a.t, p.u, if p.Loaded? then p.cur else 0, Next(s, a));
    PutKeepsRest(s, a.t, p.u, if p.Loaded? then p.cur else 0, Next(s, a));
  }

  lemma CrashKeepsInv(s: State, a: Step)
    requires Inv(s) && a.Crash?
    ensures Inv(Next(s, a))
  {
  }

  lemma StepKeepsInv(s: State, a: Step)
    requires Inv(s) && Enabled(s, a)
    ensures Inv(Next(s, a))
  {
    if a.Put? {
      PutKeepsInv(s, a);
    } else if a.Crash? {
      CrashKeepsInv(s, a);
    } else if OfGoroutine(a) {
      GoroutineKeepsInv(s, a);
    } else {
      BootKeepsInv(s, a);
    }
  }

  lemma {:induction false} RunKeepsInv(s: State, run: seq<Step>)
    requires Inv(s) && CanRun(s, run)
    ensures Inv(After(s, run))
    decreases |run|
  {
    if run != [] {
      StepKeepsInv(s, run[0]);
      RunKeepsInv(Next(s, run[0]), run[1..]);
    }
  }
}
