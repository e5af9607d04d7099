/** The server's in-memory store with its journal in the database and its
    snapshot file. */
module Storage {
  import opened Numbers
  import opened Options
  import opened Lists
  import opened Updates
  import opened RetryLoops

  // ---------------------------------------------------------------- Go maps

  /** A Go map variable: nil maps can be read but not written. */
  datatype GoMap<V> = NilMap | Made(m: map<string, V>)

  function Entries<V>(g: GoMap<V>): map<string, V> {
    match g
    case NilMap => map[]
    case Made(m) => m
  }

  // ---------------------------------------------------------------- journal

  /** The text written to the value column, by the number it was made from. */
  datatype RowText = GaugeText(v: Float64) | DeltaText(d: Int64)

  datatype Row = Row(name: string, text: RowText)

  function RowOf(u: Update): Row {
    match u
    case SetGauge(n, v) => Row(n, GaugeText(v))
    case AddCounter(n, d) => Row(n, DeltaText(d))
  }

  /** The error of each save, in the order of the updates; None is success. */
  type Saves = seq<Option<RetryError>>

  /** The journal after the updates us, in lock order: one row for each update
      that was saved, none for the others. */
  function RowsAfter(rows: seq<Row>, us: seq<Update>, saves: Saves): seq<Row>
    requires |us| == |saves|
  {
    if us == [] then rows
    else
      var k := |us| - 1;
      RowsAfter(rows, us[..k], saves[..k]) + if saves[k].None? then [RowOf(us[k])] else []
  }

  /** The database. The n-th Exec meets script(n): a failure, which leaves no
      row behind, or none. */
  class Database {
    const script: nat -> Option<Failure>
    var execs: nat
    var rows: seq<Row>

    constructor (script: nat -> Option<Failure>)
      ensures this.script == script && execs == 0 && rows == []
    {
      this.script := script;
      execs, rows := 0, [];
    }

    function Meets(n: nat): Attempt<()> {
      match script(n)
      case None => Good(())
      case Some(f) => Bad(f)
    }

    function Trail(from: nat, k: nat): seq<Attempt<()>> {
      seq(k, i requires 0 <= i < k => Meets(from + i))
    }

    /** A save that starts at the n-th Exec needs a second one, and no more. */
    predicate SecondTry(n: nat) {
      script(n).Some? && Retryable(script(n).value)
    }

    predicate Accepts(n: nat) {
      script(n).None? || (SecondTry(n) && script(n + 1).None?)
    }

    /** The error of a save that starts at the n-th Exec. */
    function SaveError(n: nat): (r: Option<RetryError>)
      ensures r.None? <==> Accepts(n)
    {
      if Accepts(n) then None
      else if !SecondTry(n) then Some(Raw(script(n).value))
      else if !Retryable(script(n + 1).value) then Some(Raw(script(n + 1).value))
      else Some(After(3, script(n + 1)))
    }

    /** Where the save after that starts. */
    function NextSave(n: nat): nat {
      n + if SecondTry(n) then 2 else 1
    }

    method Exec(row: Row) returns (a: Attempt<()>)
      modifies this
      ensures a == Meets(old(execs)) && execs == old(execs) + 1
      ensures rows == if a.Good? then old(rows) + [row] else old(rows)
    {
      a := Meets(execs);
      execs := execs + 1;
      if a.Good? { rows := rows + [row]; }
    }
  }

  const SECOND: int := 1_000_000_000

  /** The loop around Exec, with the delays it asks time.Sleep for. */
  method RetryDB(attempts: int, base: int, step: int, db: Database, row: Row)
    returns (v: Verdict<()>, slept: seq<int>)
    modifies db
    ensures db.execs >= old(db.execs)
    ensures RetryDBAccount(db.Trail(old(db.execs), db.execs - old(db.execs)), attempts, base, step, slept, v)
    ensures db.rows == if v.Returned? then old(db.rows) + [row] else old(db.rows)
  {
    ghost var from := db.execs;
    ghost var trail: seq<Attempt<()>> := [];
    slept := [];
    var last: Option<Failure> := None;
    var i := 1;
    while i < attempts
      invariant 1 <= i && (i <= attempts || i == 1)
      invariant db.execs == from + |trail| && |trail| == i - 1 && trail == db.Trail(from, |trail|)
      invariant forall k :: 0 <= k < |trail| ==> trail[k].Bad? && Retryable(trail[k].failure)
      invariant last == LastFailure(trail)
      invariant slept == Delays(base, step, |trail|)
      invariant db.rows == old(db.rows)
    {
      var a := db.Exec(row);
      trail := trail + [a];
      assert trail == db.Trail(from, |trail|);
      match a
      case Good(res) =>
        return Returned(res), slept;
      case Bad(f) =>
        if !Retryable(f) {
          return GaveUp(Raw(f)), slept;
        }
        last := Some(f);
        slept := slept + [base + step * (i - 1)];
        i := i + 1;
    }
    v := GaveUp(After(attempts, last));
  }

  // ---------------------------------------------------------------- file

  /** A file body, by what encoding/json makes of it. A body with a syntax
      error is Malformed; any other is known by the two maps it decodes to
      (None is nil) and whether some part of it had the wrong type. */
  datatype Document =
    | Malformed
    | Json(gauges: Option<map<string, real>>, counters: Option<map<string, Int64>>, mismatch: bool)

  /** What os.WriteFile did to the file. */
  datatype WriteOutcome = Written | Refused | Torn

  class Disk {
    var files: map<string, Document>

    constructor ()
      ensures files == map[]
    {
      files := map[];
    }
  }

  predicate AllFinite(g: map<string, Float64>) {
    forall n :: n in g ==> g[n].Finite?
  }

  /** json.Marshal of the two maps; no document when a gauge is not finite. */
  function Encode(g: GoMap<Float64>, c: GoMap<Int64>): Option<Document> {
    if AllFinite(Entries(g)) then
      Some(Json(if g.NilMap? then None else Some(map n | n in g.m :: g.m[n].r),
                if c.NilMap? then None else Some(c.m), false))
    else None
  }

  function GoMapOf<V>(o: Option<map<string, V>>): GoMap<V> {
    match o
    case None => NilMap
    case Some(m) => Made(m)
  }

  function DecodeGauges(d: Document): GoMap<Float64> {
    if d.Malformed? || d.gauges.None? then NilMap
    else Made(map n | n in d.gauges.value :: Finite(d.gauges.value[n]))
  }

  function DecodeCounters(d: Document): GoMap<Int64> {
    if d.Malformed? then NilMap else GoMapOf(d.counters)
  }

  /** Decoding what was encoded gives both maps back, nil ones as nil. */
  lemma SnapshotRoundTrip(g: GoMap<Float64>, c: GoMap<Int64>)
    ensures Encode(g, c).Some? <==> forall n :: n in Entries(g) ==> Entries(g)[n].Finite?
    ensures Encode(g, c).Some? ==>
      var d := Encode(g, c).value;
      d.Json? && !d.mismatch && DecodeGauges(d) == g && DecodeCounters(d) == c
  {
    if Encode(g, c).Some? && g.Made? {
      var d := Encode(g, c).value;
      assert DecodeGauges(d).m == g.m;
    }
  }

  // ---------------------------------------------------------------- store

  datatype Outcome = Done | Failed(err: RetryError) | Panicked

  function FailureOf(o: Outcome): Option<RetryError> {
    if o.Failed? then Some(o.err) else None
  }

  predicate FailsWithCode(f: Option<Failure>, codes: set<string>) {
    f.Some? && f.value.PgError? && f.value.sqlState in codes
  }

  datatype IoResult = Ok | Error

  /** What the store and its database hold; without a database, no journal. */
  datatype World = World(store: Store, journal: Option<seq<Row>>)

  /** An update of the maps, and its row if the save did not fail. */
  function Serve(w: World, u: Update, failure: Option<RetryError>): World {
    World(Apply(w.store, u),
          if w.journal.None? then None
          else Some(if failure.None? then w.journal.value + [RowOf(u)] else w.journal.value))
  }

  class MemStorage {
    var gauges: GoMap<Float64>
    var counters: GoMap<Int64>
    const filepath: string
    const disk: Disk
    const db: Database?
    const maxRetry: int := 3

    function Frame(): set<object> {
      {this} + if db == null then {} else {db}
    }

    function Contents(): Store
      reads this
    {
      Store(Entries(gauges), Entries(counters))
    }

    function Journal(): Option<seq<Row>>
      reads if db == null then {} else {db}
    {
      if db == null then None else Some(db.rows)
    }

    function View(): World
      reads Frame()
    {
      World(Contents(), Journal())
    }

    /** How many Execs the database has seen. */
    function Execs(): nat
      reads if db == null then {} else {db}
    {
      if db == null then 0 else db.execs
    }

    /** The error of a save that starts at the n-th Exec. */
    function SaveError(n: nat): Option<RetryError> {
      if db == null then None else db.SaveError(n)
    }

    function NextSave(n: nat): nat {
      if db == null then n else db.NextSave(n)
    }

    /** The number of Execs after k more saves, and their errors. */
    function ExecsAfter(n: nat, k: nat): nat {
      if k == 0 then n else NextSave(ExecsAfter(n, k - 1))
    }

    function ErrorsFrom(n: nat, k: nat): (r: Saves)
      ensures |r| == k
    {
      if k == 0 then [] else ErrorsFrom(n, k - 1) + [SaveError(ExecsAfter(n, k - 1))]
    }

    /** There is no database, or one that never fails. */
    ghost predicate Healthy() {
      db == null || forall n: nat :: db.script(n).None?
    }

    constructor (filepath: string, disk: Disk, db: Database?)
      ensures gauges == Made(map[]) && counters == Made(map[])
      ensures this.filepath == filepath && this.disk == disk && this.db == db
    {
      gauges, counters := Made(map[]), Made(map[]);
      this.filepath, this.disk, this.db := filepath, disk, db;
    }

    method GetCounter(key: string) returns (val: Int64, ok: bool)
      ensures ok <==> key in Contents().counters
      ensures val == CounterOf(Contents(), key)
    {
      match counters
      case NilMap => val, ok := 0, false;
      case Made(m) =>
        ok := key in m;
        val := if ok then m[key] else 0;
    }

    method GetGauge(key: string) returns (val: Float64, ok: bool)
      ensures ok <==> key in Contents().gauges
      ensures val == if ok then Contents().gauges[key] else Finite(0.0)
    {
      match gauges
      case NilMap => val, ok := Finite(0.0), false;
      case Made(m) =>
        ok := key in m;
        val := if ok then m[key] else Finite(0.0);
    }

    /** Without a database there is nothing to do and nothing to fail. With one,
        the row is there exactly when no error is returned; a second Exec follows one
        second after a first failure with one of three codes. */
    method SaveDB(name: string, text: RowText) returns (o: Outcome, slept: seq<int>)
      modifies if db == null then {} else {db}
      ensures !o.Panicked? && FailureOf(o) == SaveError(old(Execs())) && Execs() == NextSave(old(Execs()))
      ensures db == null ==> o == Done && slept == []
      ensures db != null ==>
        && (o.Done? <==> db.Accepts(old(db.execs)))
        && db.rows == if o.Done? then old(db.rows) + [Row(name, text)] else old(db.rows)
      ensures db != null ==>
        && old(db.execs) < db.execs <= old(db.execs) + 2
        && (db.execs == old(db.execs) + 2 <==> FailsWithCode(db.script(old(db.execs)), {"08006", "53300", "40P01"}))
        && slept == if db.execs == old(db.execs) + 1 then []
                    else if db.SecondTry(old(db.execs) + 1) then [1_000_000_000, 3_000_000_000]
                    else [1_000_000_000]
    {
      o, slept := Done, [];
      if db != null {
        ghost var from := db.execs;
        var v;
        v, slept := RetryDB(maxRetry, 1 * SECOND, 2 * SECOND, db, Row(name, text));
        ghost var trail := db.Trail(from, db.execs - from);
        assert |trail| > 0 ==> trail[0] == db.Meets(from);
        assert |trail| > 1 ==> trail[1] == db.Meets(from + 1);
        DelaysAt(1 * SECOND, 2 * SECOND, |trail|);
        DelaysAt(1 * SECOND, 2 * SECOND, |trail| - 1);
        assert slept != [] ==> slept == [1_000_000_000] || slept == [1_000_000_000, 3_000_000_000];
        if v.GaveUp? {
          o := Failed(v.err);
        }
      }
    }

    /** Sets the gauge in memory first, then writes its row. */
    method UpdateGauge(name: string, value: Float64) returns (o: Outcome)
      modifies Frame()
      ensures counters == old(counters)
      ensures o.Panicked? <==> old(gauges).NilMap?
      ensures o.Panicked? ==> View() == old(View()) && gauges == old(gauges)
      ensures o.Panicked? ==> Execs() == old(Execs())
      ensures !o.Panicked? ==>
        && gauges == Made(old(gauges).m[name := value])
        && View() == Serve(old(View()), SetGauge(name, value), FailureOf(o))
        && FailureOf(o) == SaveError(old(Execs())) && Execs() == NextSave(old(Execs()))
    {
      if gauges.NilMap? {
        return Panicked;
      }
      gauges := Made(gauges.m[name := value]);
      var slept;
      o, slept := SaveDB(name, GaugeText(value));
    }

    /** Adds the delta in memory with int64 wrap-around, then writes its row. */
    method UpdateCounter(name: string, delta: Int64) returns (o: Outcome)
      modifies Frame()
      ensures gauges == old(gauges)
      ensures o.Panicked? <==> old(counters).NilMap?
      ensures o.Panicked? ==> View() == old(View()) && counters == old(counters)
      ensures o.Panicked? ==> Execs() == old(Execs())
      ensures !o.Panicked? ==>
        && counters == Made(old(counters).m[name := Wrap64(CounterOf(old(Contents()), name) + delta)])
        && View() == Serve(old(View()), AddCounter(name, delta), FailureOf(o))
        && FailureOf(o) == SaveError(old(Execs())) && Execs() == NextSave(old(Execs()))
    {
      if counters.NilMap? {
        return Panicked;
      }
      var current := if name in counters.m then counters.m[name] else 0;
      counters := Made(counters.m[name := Wrap64(current + delta)]);
      var slept;
      o, slept := SaveDB(name, DeltaText(delta));
    }

    /** Replaces both maps by what the document decodes to, error or not; a
        document made from two maps gives them back without error. */
    method UnmarshalJSON(data: Document) returns (r: IoResult)
      modifies this
      ensures gauges == DecodeGauges(data) && counters == DecodeCounters(data)
      ensures r == Ok <==> data.Json? && !data.mismatch
      ensures forall g, c :: Encode(g, c) == Some(data) ==> r == Ok && gauges == g && counters == c
    {
      forall g, c | Encode(g, c) == Some(data)
        ensures DecodeGauges(data) == g && DecodeCounters(data) == c && data.Json? && !data.mismatch
      {
        SnapshotRoundTrip(g, c);
      }
      gauges, counters := DecodeGauges(data), DecodeCounters(data);
      r := if data.Json? && !data.mismatch then Ok else Error;
    }

    /** Fails exactly when a gauge is not finite; otherwise the document holds
        both maps. */
    method MarshalJSON() returns (data: Option<Document>)
      ensures data == Encode(gauges, counters)
      ensures data.None? <==> exists n :: n in Entries(gauges) && !Entries(gauges)[n].Finite?
      ensures data.Some? ==> DecodeGauges(data.value) == gauges && DecodeCounters(data.value) == counters
    {
      SnapshotRoundTrip(gauges, counters);
      data := Encode(gauges, counters);
    }

    /** A missing file or one with a syntax error changes nothing. */
    method ReadFromFile(path: string) returns (r: IoResult)
      modifies this
      ensures path !in disk.files || disk.files[path].Malformed? ==>
        r == Error && gauges == old(gauges) && counters == old(counters)
      ensures path in disk.files && disk.files[path].Json? ==>
        && gauges == DecodeGauges(disk.files[path]) && counters == DecodeCounters(disk.files[path])
        && (r == Ok <==> !disk.files[path].mismatch)
    {
      if path !in disk.files || disk.files[path].Malformed? {
        return Error;
      }
      r := UnmarshalJSON(disk.files[path]);
    }

    /** Writes the snapshot; io is what the file system does to the write. */
    method FlushToFile(io: WriteOutcome) returns (r: IoResult)
      modifies disk
      ensures !AllFinite(Entries(gauges)) ==> r == Error && disk.files == old(disk.files)
      ensures AllFinite(Entries(gauges)) ==>
        && (r == Ok <==> io == Written)
        && match io
           case Written => disk.files == old(disk.files)[filepath := Encode(gauges, counters).value]
           case Refused => disk.files == old(disk.files)
           case Torn => disk.files == old(disk.files)[filepath := Malformed]
    {
      var data := MarshalJSON();
      if data.None? {
        return Error;
      }
      match io
      case Written =>
        disk.files := disk.files[filepath := data.value];
        return Ok;
      case Refused =>
        return Error;
      case Torn =>
        disk.files := disk.files[filepath := Malformed];
        return Error;
    }
  }

  /** Flushing and, if that succeeded, reading the file back, in the same
      process or in a new one, restores both maps exactly. */
  method FlushThenRead(ms: MemStorage, other: MemStorage, io: WriteOutcome) returns (r: IoResult)
    requires ms.disk == other.disk
    modifies ms.disk, other
    ensures r == Ok <==> AllFinite(old(Entries(ms.gauges))) && io == Written
    ensures r == Ok ==> other.gauges == old(ms.gauges) && other.counters == old(ms.counters)
    ensures r != Ok ==> other.gauges == old(other.gauges) && other.counters == old(other.counters)
    ensures r != Ok && io != Torn ==> ms.disk.files == old(ms.disk.files)
  {
    r := ms.FlushToFile(io);
    SnapshotRoundTrip(ms.gauges, ms.counters);
    if r == Ok {
      r := other.ReadFromFile(ms.filepath);
    }
  }

  // ---------------------------------------------------------------- histories

  predicate BothMade(ms: MemStorage)
    reads ms
  {
    ms.gauges.Made? && ms.counters.Made?
  }

  /** The map that u writes to is nil. */
  predicate HitsNil(u: Update, gaugesNil: bool, countersNil: bool) {
    if u.SetGauge? then gaugesNil else countersNil
  }

  /** A handler's call on the store, by the kind of the update. */
  method Perform(ms: MemStorage, u: Update) returns (o: Outcome)
    modifies ms.Frame()
    ensures o.Panicked? <==> HitsNil(u, old(ms.gauges.NilMap?), old(ms.counters.NilMap?))
    ensures ms.gauges.NilMap? == old(ms.gauges.NilMap?) && ms.counters.NilMap? == old(ms.counters.NilMap?)
    ensures ms.View() == if o.Panicked? then old(ms.View()) else Serve(old(ms.View()), u, FailureOf(o))
    ensures o.Panicked? ==> ms.Execs() == old(ms.Execs())
    ensures !o.Panicked? ==>
      FailureOf(o) == ms.SaveError(old(ms.Execs())) && ms.Execs() == ms.NextSave(old(ms.Execs()))
  {
    match u
    case SetGauge(n, v) => o := ms.UpdateGauge(n, v);
    case AddCounter(n, d) => o := ms.UpdateCounter(n, d);
  }

  datatype Query = AskCounter(key: string) | AskGauge(key: string)

  datatype Call = DoUpdate(u: Update) | Get(q: Query)

  datatype Reading = Updated | CounterIs(val: Int64, ok: bool) | GaugeIs(level: Float64, found: bool)

  function UpdatesIn(calls: seq<Call>): seq<Update> {
    if calls == [] then []
    else
      var c := calls[|calls| - 1];
      UpdatesIn(calls[..|calls| - 1]) + if c.DoUpdate? then [c.u] else []
  }

  /** What a Get reads in the store st. */
  function ReadingOf(q: Query, st: Store): Reading {
    match q
    case AskCounter(key) => CounterIs(CounterOf(st, key), key in st.counters)
    case AskGauge(key) => GaugeIs(if key in st.gauges then st.gauges[key] else Finite(0.0), key in st.gauges)
  }

  function AnswerTo(c: Call, st: Store): Reading {
    if c.DoUpdate? then Updated else ReadingOf(c.q, st)
  }

  method PerformCall(ms: MemStorage, c: Call) returns (r: Reading)
    requires BothMade(ms)
    modifies ms.Frame()
    ensures BothMade(ms) && r == AnswerTo(c, old(ms.Contents()))
    ensures ms.Contents() == if c.DoUpdate? then Apply(old(ms.Contents()), c.u) else old(ms.Contents())
  {
    match c
    case DoUpdate(u) =>
      var o := Perform(ms, u);
      r := Updated;
    case Get(AskCounter(key)) =>
      var val, ok := ms.GetCounter(key);
      r := CounterIs(val, ok);
    case Get(AskGauge(key)) =>
      var level, found := ms.GetGauge(key);
      r := GaugeIs(level, found);
  }

  /** What a session leaves: the replay of its updates, and every answer as of
      the updates before it. */
  ghost predicate Told(calls: seq<Call>, st: Store, readings: seq<Reading>, now: Store)
    requires |readings| == |calls|
    decreases |calls|
  {
    if calls == [] then now == st
    else
      var k := |calls| - 1;
      var before := Replay(st, UpdatesIn(calls[..k]));
      && Told(calls[..k], st, readings[..k], before)
      && readings[k] == AnswerTo(calls[k], before)
      && now == Replay(st, UpdatesIn(calls))
  }

  lemma ReplayIsNow(calls: seq<Call>, st: Store, readings: seq<Reading>, now: Store)
    requires |readings| == |calls| && Told(calls, st, readings, now)
    ensures now == Replay(st, UpdatesIn(calls))
  {
  }

  lemma ToldOneMore(calls: seq<Call>, st: Store, readings: seq<Reading>, now: Store, c: Call)
    requires |readings| == |calls| && Told(calls, st, readings, now)
    ensures Told(calls + [c], st, readings + [AnswerTo(c, now)], if c.DoUpdate? then Apply(now, c.u) else now)
  {
    assert (calls + [c])[..|calls|] == calls && (readings + [AnswerTo(c, now)])[..|calls|] == readings;
    ReplayIsNow(calls, st, readings, now);
    if c.DoUpdate? {
      ReplayOne(st, UpdatesIn(calls), c.u);
    } else {
      assert UpdatesIn(calls + [c]) == UpdatesIn(calls);
    }
  }

  lemma {:induction false} ToldAt(calls: seq<Call>, st: Store, readings: seq<Reading>, now: Store, i: nat)
    requires |readings| == |calls| && Told(calls, st, readings, now) && i < |calls|
    ensures readings[i] == AnswerTo(calls[i], Replay(st, UpdatesIn(calls[..i])))
    decreases |calls|
  {
    var front := calls[..|calls| - 1];
    if i < |front| {
      ToldAt(front, st, readings[..|front|], Replay(st, UpdatesIn(front)), i);
      assert front[..i] == calls[..i];
    }
  }

  /** Any sequence of calls on the store. */
  method Session(ms: MemStorage, calls: seq<Call>) returns (readings: seq<Reading>)
    requires BothMade(ms)
    modifies ms.Frame()
    ensures BothMade(ms) && |readings| == |calls|
    ensures Told(calls, old(ms.Contents()), readings, ms.Contents())
  {
    readings := [];
    ghost var st := ms.Contents();
    for i := 0 to |calls|
      invariant BothMade(ms) && |readings| == i
      invariant Told(calls[..i], st, readings, ms.Contents())
    {
      ToldOneMore(calls[..i], st, readings, ms.Contents(), calls[i]);
      TakeOneMore(calls, i);
      var r := PerformCall(ms, calls[i]);
      readings := readings + [r];
    }
    assert calls[..|calls|] == calls;
  }

  // ---------------------------------------------------------------- journal and map

  /** The world after the updates us with these errors from the database. */
  function ServeAll(w: World, us: seq<Update>, saves: Saves): World
    requires |us| == |saves|
  {
    if us == [] then w
    else
      var k := |us| - 1;
      Serve(ServeAll(w, us[..k], saves[..k]), us[k], saves[k])
  }

  lemma ServeOneMore(w: World, us: seq<Update>, saves: Saves, u: Update, save: Option<RetryError>)
    requires |us| == |saves|
    ensures ServeAll(w, us + [u], saves + [save]) == Serve(ServeAll(w, us, saves), u, save)
  {
    assert (us + [u])[..|us|] == us && (saves + [save])[..|us|] == saves;
  }

  lemma {:induction false} ServeAllIs(w: World, us: seq<Update>, saves: Saves)
    requires |us| == |saves|
    ensures ServeAll(w, us, saves).store == Replay(w.store, us)
    ensures ServeAll(w, us, saves).journal
         == if w.journal.None? then None else Some(RowsAfter(w.journal.value, us, saves))
  {
    if us != [] {
      var k := |us| - 1;
      ServeAllIs(w, us[..k], saves[..k]);
      if w.journal.Some? {
        assert RowsAfter(w.journal.value, us[..k], saves[..k]) + [] == RowsAfter(w.journal.value, us[..k], saves[..k]);
      }
    }
  }

  method PerformEach(ms: MemStorage, us: seq<Update>) returns (ghost saves: Saves)
    requires BothMade(ms)
    modifies ms.Frame()
    ensures BothMade(ms) && |saves| == |us| && ms.View() == ServeAll(old(ms.View()), us, saves)
    ensures saves == ms.ErrorsFrom(old(ms.Execs()), |us|) && ms.Execs() == ms.ExecsAfter(old(ms.Execs()), |us|)
  {
    saves := [];
    ghost var w, from := ms.View(), ms.Execs();
    for i := 0 to |us|
      invariant BothMade(ms) && |saves| == i && ms.View() == ServeAll(w, us[..i], saves)
      invariant saves == ms.ErrorsFrom(from, i) && ms.Execs() == ms.ExecsAfter(from, i)
    {
      var o := Perform(ms, us[i]);
      ServeOneMore(w, us[..i], saves, us[i], FailureOf(o));
      TakeOneMore(us, i);
      saves := saves + [FailureOf(o)];
    }
    assert us[..|us|] == us;
  }

  /** Any updates in the order of the lock: the maps are their replay, and the
      journal has one row for each that returned no error, in that order. Which do
      is decided by the database. */
  method PerformAll(ms: MemStorage, us: seq<Update>) returns (ghost saves: Saves)
    requires BothMade(ms)
    modifies ms.Frame()
    ensures BothMade(ms) && |saves| == |us|
    ensures ms.Contents() == Replay(old(ms.Contents()), us)
    ensures ms.db != null ==> ms.db.rows == RowsAfter(old(ms.Journal().value), us, saves)
    ensures saves == ms.ErrorsFrom(old(ms.Execs()), |us|)
  {
    ghost var w := ms.View();
    saves := PerformEach(ms, us);
    ServeAllIs(w, us, saves);
  }

  /** A database that never fails has an Exec, and no error, for each save. */
  lemma {:induction false} HealthySaves(ms: MemStorage, n: nat, k: nat)
    requires ms.Healthy()
    ensures forall i :: 0 <= i < k ==> ms.ErrorsFrom(n, k)[i].None?
    ensures ms.ExecsAfter(n, k) == if ms.db == null then n else n + k
  {
    if k > 0 {
      HealthySaves(ms, n, k - 1);
    }
  }

  function RowsOf(us: seq<Update>): (r: seq<Row>)
    ensures |r| == |us| && forall i :: 0 <= i < |us| ==> r[i] == RowOf(us[i])
  {
    seq(|us|, i requires 0 <= i < |us| => RowOf(us[i]))
  }

  /** Then the journal has one row for each update, in their order. */
  lemma {:induction false} RowsOfAll(rows: seq<Row>, us: seq<Update>, saves: Saves)
    requires |us| == |saves| && forall i :: 0 <= i < |saves| ==> saves[i].None?
    ensures RowsAfter(rows, us, saves) == rows + RowsOf(us)
  {
    if us != [] {
      var k := |us| - 1;
      RowsOfAll(rows, us[..k], saves[..k]);
      assert RowsOf(us) == RowsOf(us[..k]) + [RowOf(us[k])];
    }
  }

  /** What a row adds to the counter n. Every row of a name used only as a
      counter carries a delta. */
  function RowValue(r: Row, n: string): int {
    if r.name == n && r.text.DeltaText? then r.text.d else 0
  }

  function RowSum(rows: seq<Row>, n: string): int {
    if rows == [] then 0 else RowSum(rows[..|rows| - 1], n) + RowValue(rows[|rows| - 1], n)
  }

  /** The deltas of n whose row was not written. */
  function UnsavedSum(us: seq<Update>, saves: Saves, n: string): int
    requires |us| == |saves|
  {
    if us == [] then 0
    else
      var k := |us| - 1;
      UnsavedSum(us[..k], saves[..k], n) + if saves[k].None? then 0 else DeltaOf(us[k], n)
  }

  lemma RowSumOneMore(rows: seq<Row>, r: Row, n: string)
    ensures RowSum(rows + [r], n) == RowSum(rows, n) + RowValue(r, n)
  {
    assert (rows + [r])[..|rows|] == rows;
  }

  lemma {:induction false} RowsAccountForDeltas(rows: seq<Row>, us: seq<Update>, saves: Saves, n: string)
    requires |us| == |saves|
    ensures RowSum(RowsAfter(rows, us, saves), n) + UnsavedSum(us, saves, n) == RowSum(rows, n) + DeltaSum(us, n)
  {
    if us != [] {
      var k := |us| - 1;
      var front := RowsAfter(rows, us[..k], saves[..k]);
      RowsAccountForDeltas(rows, us[..k], saves[..k], n);
      RowSumOneMore(front, RowOf(us[k]), n);
      assert saves[k].Some? ==> RowsAfter(rows, us, saves) == front;
    }
  }

  /** The rows in the database and the counter in memory tell the same story:
      the map's change is the change of the row sum plus the failed deltas,
      modulo 2^64. */
  lemma JournalMatchesCounter(s: Store, rows: seq<Row>, us: seq<Update>, saves: Saves, n: string)
    requires |us| == |saves|
    ensures CounterOf(Replay(s, us), n)
         == Wrap64(CounterOf(s, n) + RowSum(RowsAfter(rows, us, saves), n) - RowSum(rows, n) + UnsavedSum(us, saves, n))
  {
    CounterFold(s, us, n);
    RowsAccountForDeltas(rows, us, saves, n);
  }

  /** rows[j] is the last row with name n. */
  ghost predicate LastRow(rows: seq<Row>, n: string, j: int) {
    && 0 <= j < |rows| && rows[j].name == n
    && forall k :: j < k < |rows| ==> rows[k].name != n
  }

  lemma {:induction false} LastRowOfGauge(rows: seq<Row>, us: seq<Update>, saves: Saves, n: string) returns (j: nat)
    requires |us| == |saves|
    requires forall k :: 0 <= k < |us| && us[k].name == n ==> us[k].SetGauge?
    requires Writes(us, n) && saves[LastIndex(us, n)].None?
    ensures LastRow(RowsAfter(rows, us, saves), n, j)
    ensures RowsAfter(rows, us, saves)[j] == RowOf(us[LastIndex(us, n)])
  {
    var k := |us| - 1;
    if us[k].name == n {
      j := |RowsAfter(rows, us, saves)| - 1;
    } else {
      j := LastRowOfGauge(rows, us[..k], saves[..k], n);
      var front := RowsAfter(rows, us[..k], saves[..k]);
      assert forall i :: 0 <= i < |front| ==> front[i] == RowsAfter(rows, us, saves)[i];
    }
  }

  /** A name used only as a gauge: when its last update was saved, its last
      row has the value in the map. */
  lemma JournalMatchesGauge(s: Store, rows: seq<Row>, us: seq<Update>, saves: Saves, n: string) returns (j: nat)
    requires |us| == |saves|
    requires forall k :: 0 <= k < |us| && us[k].name == n ==> us[k].SetGauge?
    requires Writes(us, n) && saves[LastIndex(us, n)].None?
    ensures n in Replay(s, us).gauges && LastRow(RowsAfter(rows, us, saves), n, j)
    ensures RowsAfter(rows, us, saves)[j] == Row(n, GaugeText(Replay(s, us).gauges[n]))
  {
    j := LastRowOfGauge(rows, us, saves, n);
    GaugeIsLastWrite(s, us, n);
  }
}
