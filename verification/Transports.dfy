/** The three ways a metric reaches the store: the JSON batch handler, the
    JSON single-metric handler, and the gRPC client with its server. */
module Transports {
  import opened Numbers
  import opened Options
  import opened Lists
  import opened Updates
  import opened RetryLoops
  import opened Storage

  /** The MType string: one of the two constants, or any other text. */
  datatype MType = Gauge | Counter | OtherType(text: string)

  /** models.Metrics; None is nil. */
  datatype Metrics = Metrics(id: string, mtype: MType, delta: Option<Int64>, value: Option<Float64>, hash: string)

  /** The open enum of the wire format. */
  datatype WireType = WireGauge | WireCounter | WireOther(code: int)

  datatype WireMetric = WireMetric(id: string, kind: WireType, delta: Int64, value: Float64)

  datatype Parsed = Parsed(metric: Metrics) | NilMetric | EmptyId | UnknownType

  // ---------------------------------------------------------------- wire conversion

  /** None is an error: a missing payload or an unknown type. */
  function TransformMetricToProto(m: Metrics): Option<WireMetric> {
    if m.mtype == Gauge then
      if m.value.None? then None else Some(WireMetric(m.id, WireGauge, 0, m.value.value))
    else if m.mtype == Counter then
      if m.delta.None? then None else Some(WireMetric(m.id, WireCounter, m.delta.value, Finite(0.0)))
    else None
  }

  /** The payload that the type does not use is not read. */
  function UsedPart(p: WireMetric): WireMetric {
    match p.kind
    case WireGauge => p.(delta := 0)
    case WireCounter => p.(value := Finite(0.0))
    case _ => p
  }

  /** An accepted metric converts back to what was read of it. */
  function MetricFromProto(p: Option<WireMetric>): (r: Parsed)
    ensures r.Parsed? <==> p.Some? && p.value.id != "" && !p.value.kind.WireOther?
    ensures r.Parsed? ==> r.metric.id != "" && WellTyped(r.metric) && r.metric == Stripped(r.metric)
    ensures r.Parsed? ==> TransformMetricToProto(r.metric) == Some(UsedPart(p.value))
  {
    if p.None? then NilMetric
    else if p.value.id == "" then EmptyId
    else
      match p.value.kind
      case WireGauge => Parsed(Metrics(p.value.id, Gauge, None, Some(p.value.value), ""))
      case WireCounter => Parsed(Metrics(p.value.id, Counter, Some(p.value.delta), None, ""))
      case WireOther(_) => UnknownType
  }

  /** A known type with the payload that goes with it. */
  predicate WellTyped(m: Metrics) {
    (m.mtype == Gauge && m.value.Some?) || (m.mtype == Counter && m.delta.Some?)
  }

  /** m without its hash and without the payload its type does not use. */
  function Stripped(m: Metrics): Metrics {
    m.(hash := "",
       delta := if m.mtype == Counter then m.delta else None,
       value := if m.mtype == Gauge then m.value else None)
  }

  /** Over a whole batch: conversion succeeds exactly for well-typed metrics,
      and the server then reads every metric back iff all ids are non-empty. */
  lemma WireRoundTrip(batch: seq<Metrics>, wire: seq<WireMetric>)
    requires |wire| == |batch|
    requires forall i :: 0 <= i < |batch| ==> TransformMetricToProto(batch[i]) == Some(wire[i])
    ensures forall i :: 0 <= i < |batch| ==> WellTyped(batch[i])
    ensures (forall i :: 0 <= i < |batch| ==> MetricFromProto(Some(wire[i])) == Parsed(Stripped(batch[i])))
       <==> (forall i :: 0 <= i < |batch| ==> batch[i].id != "")
    ensures forall i :: 0 <= i < |batch| && batch[i].id == "" ==> MetricFromProto(Some(wire[i])) == EmptyId
    ensures forall i :: 0 <= i < |batch| ==> wire[i].kind == if batch[i].mtype == Gauge then WireGauge else WireCounter
  {
    forall i | 0 <= i < |batch|
      ensures WellTyped(batch[i]) && wire[i].id == batch[i].id
      ensures MetricFromProto(Some(wire[i])) == if batch[i].id == "" then EmptyId else Parsed(Stripped(batch[i]))
    {
      assert TransformMetricToProto(batch[i]) == Some(wire[i]);
    }
  }

  datatype CallResult = Sent | ConversionError | RpcError

  /** The gRPC client; requests is what went out on the connection. */
  class GRPCClient {
    var requests: seq<seq<WireMetric>>

    constructor ()
      ensures requests == []
    {
      requests := [];
    }

    /** Converts everything first: one bad metric and nothing is sent. There is
        no retry; answered tells whether the server answered without error. */
    method UpdateMetrics(metrics: seq<Metrics>, answered: bool) returns (r: CallResult)
      modifies this
      ensures r == ConversionError <==> exists i :: 0 <= i < |metrics| && !WellTyped(metrics[i])
      ensures r == ConversionError ==> requests == old(requests)
      ensures r != ConversionError ==>
        && |requests| == |old(requests)| + 1 && requests[..|old(requests)|] == old(requests)
        && var wire := requests[|old(requests)|];
           |wire| == |metrics| && forall i :: 0 <= i < |metrics| ==> TransformMetricToProto(metrics[i]) == Some(wire[i])
      ensures r != ConversionError ==> (r == Sent <==> answered)
    {
      var wire: seq<WireMetric> := [];
      for n := 0 to |metrics|
        invariant |wire| == n && requests == old(requests)
        invariant forall i :: 0 <= i < n ==>
          WellTyped(metrics[i]) && TransformMetricToProto(metrics[i]) == Some(wire[i])
      {
        var p := TransformMetricToProto(metrics[n]);
        if p.None? {
          assert !WellTyped(metrics[n]);
          return ConversionError;
        }
        wire := wire + [p.value];
      }
      requests := requests + [wire];
      r := if answered then Sent else RpcError;
    }

    method UpdateMetric(metric: Metrics, answered: bool) returns (r: CallResult)
      modifies this
      ensures r == ConversionError <==> !WellTyped(metric)
      ensures r == ConversionError ==> requests == old(requests)
      ensures r != ConversionError ==> requests == old(requests) + [[TransformMetricToProto(metric).value]]
      ensures r != ConversionError ==> (r == Sent <==> answered)
    {
      r := UpdateMetrics([metric], answered);
      assert [metric][0] == metric;
      if r != ConversionError {
        assert requests[|old(requests)|] == [TransformMetricToProto(metric).value];
        assert requests == requests[..|old(requests)|] + [requests[|old(requests)|]];
      } else {
        var i :| 0 <= i < 1 && !WellTyped([metric][i]);
      }
    }
  }

  // ---------------------------------------------------------------- HTTP handlers

  /** The update an HTTP handler makes of m: any type but gauge counts as a
      counter. None is a nil payload, which panics when it is read. */
  function HttpUpdate(m: Metrics): Option<Update> {
    if m.mtype == Gauge then
      if m.value.None? then None else Some(SetGauge(m.id, m.value.value))
    else
      if m.delta.None? then None else Some(AddCounter(m.id, m.delta.value))
  }

  datatype Reply = Status(code: int) | Aborted   // a panic drops the connection

  /** Handling m in a server with these maps panics. */
  predicate Panics(m: Metrics, gaugesNil: bool, countersNil: bool) {
    HttpUpdate(m).None? || HitsNil(HttpUpdate(m).value, gaugesNil, countersNil)
  }

  /** The errors of the saves that failed, in order. */
  function ErrorsOf(saves: Saves): seq<RetryError> {
    if saves == [] then []
    else
      var k := |saves| - 1;
      ErrorsOf(saves[..k]) + if saves[k].None? then [] else [saves[k].value]
  }

  predicate AllSaved(saves: Saves) {
    forall i :: 0 <= i < |saves| ==> saves[i].None?
  }

  /** How many of the first i saves failed. */
  function FailuresIn(saves: Saves, i: nat): nat
    requires i <= |saves|
  {
    if i == 0 then 0 else FailuresIn(saves, i - 1) + if saves[i - 1].None? then 0 else 1
  }

  lemma {:induction false} FailuresOfPrefix(saves: Saves, k: nat, i: nat)
    requires i <= k <= |saves|
    ensures FailuresIn(saves[..k], i) == FailuresIn(saves, i)
  {
    if i > 0 {
      FailuresOfPrefix(saves, k, i - 1);
    }
  }

  lemma {:induction false} ErrorsCount(saves: Saves)
    ensures |ErrorsOf(saves)| == FailuresIn(saves, |saves|)
  {
    if saves != [] {
      var k := |saves| - 1;
      ErrorsCount(saves[..k]);
      FailuresOfPrefix(saves, k, k);
    }
  }

  /** The error of a failed save is in the list after exactly those of the failed
      saves before it. */
  lemma {:induction false} ErrorsInOrder(saves: Saves, i: nat)
    requires i < |saves| && saves[i].Some?
    ensures FailuresIn(saves, i) < |ErrorsOf(saves)| && ErrorsOf(saves)[FailuresIn(saves, i)] == saves[i].value
  {
    var k := |saves| - 1;
    FailuresOfPrefix(saves, k, i);
    if i < k {
      ErrorsInOrder(saves[..k], i);
    } else {
      ErrorsCount(saves[..k]);
    }
  }

  lemma NoErrorsIffAllSaved(saves: Saves)
    ensures ErrorsOf(saves) == [] <==> AllSaved(saves)
  {
  }

  /** The updates that the HTTP handlers make of the first n metrics; one that
      panics makes none. */
  function HttpUpdates(ms: seq<Metrics>, n: nat): seq<Update>
    requires n <= |ms|
  {
    if n == 0 then []
    else
      HttpUpdates(ms, n - 1) + if HttpUpdate(ms[n - 1]).Some? then [HttpUpdate(ms[n - 1]).value] else []
  }

  /** The world after the HTTP handlers used the first |saves| metrics, with
      these errors from the database. */
  function HttpServe(w: World, ms: seq<Metrics>, saves: Saves): World
    requires |saves| <= |ms|
    decreases |saves|
  {
    if saves == [] then w
    else
      var k := |saves| - 1;
      var before := HttpServe(w, ms, saves[..k]);
      if HttpUpdate(ms[k]).None? then before else Serve(before, HttpUpdate(ms[k]).value, saves[k])
  }

  lemma {:induction false} HttpServeStore(w: World, ms: seq<Metrics>, saves: Saves)
    requires |saves| <= |ms|
    ensures HttpServe(w, ms, saves).store == Replay(w.store, HttpUpdates(ms, |saves|))
    decreases |saves|
  {
    if saves != [] {
      var k := |saves| - 1;
      HttpServeStore(w, ms, saves[..k]);
      if HttpUpdate(ms[k]).Some? {
        ReplayOne(w.store, HttpUpdates(ms, k), HttpUpdate(ms[k]).value);
      } else {
        assert HttpUpdates(ms, k + 1) == HttpUpdates(ms, k);
      }
    }
  }

  /** The journal then: a row for each of them whose save did not fail. */
  lemma {:induction false} HttpServeRows(w: World, ms: seq<Metrics>, saves: Saves)
    requires |saves| <= |ms| && w.journal.Some?
    requires forall i :: 0 <= i < |saves| ==> HttpUpdate(ms[i]).Some?
    ensures |HttpUpdates(ms, |saves|)| == |saves|
    ensures HttpServe(w, ms, saves).journal == Some(RowsAfter(w.journal.value, HttpUpdates(ms, |saves|), saves))
    decreases |saves|
  {
    if saves != [] {
      var k := |saves| - 1;
      HttpServeRows(w, ms, saves[..k]);
      var us := HttpUpdates(ms, k + 1);
      var front := RowsAfter(w.journal.value, HttpUpdates(ms, k), saves[..k]);
      assert us[..k] == HttpUpdates(ms, k) && us[k] == HttpUpdate(ms[k]).value;
      assert saves[k].Some? ==> front + [] == front;
    }
  }

  /** With a database that never fails: one row for each metric, in order. */
  lemma HealthyRows(ms: MemStorage, from: nat, w: World, metrics: seq<Metrics>, saves: Saves)
    requires ms.Healthy() && saves == ms.ErrorsFrom(from, |saves|) && w.journal.Some?
    requires |saves| <= |metrics| && forall i :: 0 <= i < |saves| ==> HttpUpdate(metrics[i]).Some?
    ensures AllSaved(saves)
    ensures HttpServe(w, metrics, saves).journal == Some(w.journal.value + RowsOf(HttpUpdates(metrics, |saves|)))
  {
    HealthySaves(ms, from, |saves|);
    HttpServeRows(w, metrics, saves);
    RowsOfAll(w.journal.value, HttpUpdates(metrics, |saves|), saves);
  }

  /** The first n metrics are handled without a panic. */
  predicate HandledUpTo(n: nat, ms: seq<Metrics>, gaugesNil: bool, countersNil: bool)
    requires n <= |ms|
  {
    n == 0 || (HandledUpTo(n - 1, ms, gaugesNil, countersNil) && !Panics(ms[n - 1], gaugesNil, countersNil))
  }

  lemma {:induction false} HandledUpToMeans(n: nat, ms: seq<Metrics>, gaugesNil: bool, countersNil: bool)
    requires n <= |ms|
    ensures HandledUpTo(n, ms, gaugesNil, countersNil)
       <==> forall i :: 0 <= i < n ==> !Panics(ms[i], gaugesNil, countersNil)
  {
    if n > 0 {
      HandledUpToMeans(n - 1, ms, gaugesNil, countersNil);
    }
  }

  /** The first n metrics are handled without a panic, and the next one, if
      any, panics. */
  ghost predicate PanicsAfter(n: nat, ms: seq<Metrics>, gaugesNil: bool, countersNil: bool) {
    && n <= |ms| && HandledUpTo(n, ms, gaugesNil, countersNil)
    && (n < |ms| ==> Panics(ms[n], gaugesNil, countersNil))
  }

  /** A handler's use of one metric: reading a nil payload panics. */
  method StoreOne(ms: MemStorage, metric: Metrics) returns (o: Outcome)
    modifies ms.Frame()
    ensures o.Panicked? <==> Panics(metric, old(ms.gauges.NilMap?), old(ms.counters.NilMap?))
    ensures ms.gauges.NilMap? == old(ms.gauges.NilMap?) && ms.counters.NilMap? == old(ms.counters.NilMap?)
    ensures ms.View() ==
      if o.Panicked? then old(ms.View()) else Serve(old(ms.View()), HttpUpdate(metric).value, FailureOf(o))
    ensures o.Panicked? ==> ms.Execs() == old(ms.Execs())
    ensures !o.Panicked? ==>
      && FailureOf(o) == ms.SaveError(old(ms.Execs())) && ms.Execs() == ms.NextSave(old(ms.Execs()))
      && (o.Done? <==> ms.db == null || ms.db.Accepts(old(ms.Execs())))
  {
    if metric.mtype == Gauge {
      if metric.value.None? {
        return Panicked;
      }
      o := ms.UpdateGauge(metric.id, metric.value.value);
    } else {
      if metric.delta.None? {
        return Panicked;
      }
      o := ms.UpdateCounter(metric.id, metric.delta.value);
    }
  }

  lemma WhenHealthy(ms: MemStorage, from: nat, w: World, metrics: seq<Metrics>, saves: Saves,
                    gaugesNil: bool, countersNil: bool)
    requires |saves| <= |metrics| && saves == ms.ErrorsFrom(from, |saves|)
    requires HandledUpTo(|saves|, metrics, gaugesNil, countersNil)
    ensures ms.Healthy() ==> AllSaved(saves)
    ensures ms.Healthy() && w.journal.Some? ==>
      HttpServe(w, metrics, saves).journal == Some(w.journal.value + RowsOf(HttpUpdates(metrics, |saves|)))
  {
    HandledUpToMeans(|saves|, metrics, gaugesNil, countersNil);
    assert forall i :: 0 <= i < |saves| ==> !Panics(metrics[i], gaugesNil, countersNil);
    if ms.Healthy() {
      HealthySaves(ms, from, |saves|);
      if w.journal.Some? {
        HealthyRows(ms, from, w, metrics, saves);
      }
    }
  }

  lemma OneMoreStored(w: World, ms: seq<Metrics>, saves: Saves, save: Option<RetryError>)
    requires |saves| < |ms| && HttpUpdate(ms[|saves|]).Some?
    ensures HttpServe(w, ms, saves + [save]) == Serve(HttpServe(w, ms, saves), HttpUpdate(ms[|saves|]).value, save)
    ensures ErrorsOf(saves + [save]) == if save.None? then ErrorsOf(saves) else ErrorsOf(saves) + [save.value]
  {
    assert (saves + [save])[..|saves|] == saves;
    assert ErrorsOf(saves) + [] == ErrorsOf(saves);
  }

  lemma OneMoreError(ms: MemStorage, from: nat, n: nat)
    ensures ms.ErrorsFrom(from, n + 1) == ms.ErrorsFrom(from, n) + [ms.SaveError(ms.ExecsAfter(from, n))]
    ensures ms.ExecsAfter(from, n + 1) == ms.NextSave(ms.ExecsAfter(from, n))
  {
  }

  /** What is known when so many metrics were stored with these errors. */
  ghost predicate StoredSo(ms: MemStorage, w: World, from: nat, metrics: seq<Metrics>, gaugesNil: bool,
                           countersNil: bool, errs: seq<RetryError>, saves: Saves)
    reads ms.Frame()
  {
    && ms.gauges.NilMap? == gaugesNil && ms.counters.NilMap? == countersNil
    && |saves| <= |metrics| && HandledUpTo(|saves|, metrics, gaugesNil, countersNil)
    && ms.View() == HttpServe(w, metrics, saves) && errs == ErrorsOf(saves)
    && saves == ms.ErrorsFrom(from, |saves|) && ms.Execs() == ms.ExecsAfter(from, |saves|)
  }

  method StoreNext(ms: MemStorage, metrics: seq<Metrics>, i: nat, ghost w: World, ghost from: nat,
                   ghost gaugesNil: bool, ghost countersNil: bool, ghost errs: seq<RetryError>, ghost saves: Saves)
    returns (o: Outcome)
    requires StoredSo(ms, w, from, metrics, gaugesNil, countersNil, errs, saves) && |saves| == i < |metrics|
    modifies ms.Frame()
    ensures o.Panicked? ==>
      && StoredSo(ms, w, from, metrics, gaugesNil, countersNil, errs, saves)
      && Panics(metrics[i], gaugesNil, countersNil)
    ensures !o.Panicked? ==>
      StoredSo(ms, w, from, metrics, gaugesNil, countersNil, if o.Failed? then errs + [o.err] else errs,
               saves + [FailureOf(o)])
  {
    o := StoreOne(ms, metrics[i]);
    if !o.Panicked? {
      OneMoreStored(w, metrics, saves, FailureOf(o));
      OneMoreError(ms, from, i);
    }
  }

  /** The loop of the batch handler: all metrics up to the first that panics. */
  method StoreEach(ms: MemStorage, metrics: seq<Metrics>)
    returns (panicked: bool, errs: seq<RetryError>, ghost saves: Saves)
    modifies ms.Frame()
    ensures StoredSo(ms, old(ms.View()), old(ms.Execs()), metrics, old(ms.gauges.NilMap?), old(ms.counters.NilMap?),
                     errs, saves)
    ensures panicked <==> |saves| < |metrics|
    ensures panicked ==> Panics(metrics[|saves|], old(ms.gauges.NilMap?), old(ms.counters.NilMap?))
  {
    panicked, saves, errs := false, [], [];
    ghost var w, from, gaugesNil, countersNil := ms.View(), ms.Execs(), ms.gauges.NilMap?, ms.counters.NilMap?;
    for i := 0 to |metrics|
      invariant !panicked && |saves| == i
      invariant StoredSo(ms, w, from, metrics, gaugesNil, countersNil, errs, saves)
    {
      var o := StoreNext(ms, metrics, i, w, from, gaugesNil, countersNil, errs, saves);
      if o.Panicked? {
        panicked := true;
        break;
      }
      saves := saves + [FailureOf(o)];
      if o.Failed? {
        errs := errs + [o.err];
      }
    }
  }

  datatype ValueReply = NotFound | Found(metric: Metrics) | EmptyBody

  /** What json.Encode makes of a metric after the header 200. */
  function Encoded(m: Metrics): (r: ValueReply)
    ensures r == EmptyBody <==> m.value.Some? && !m.value.value.Finite?
    ensures r != EmptyBody ==> r == Found(m)
  {
    if m.value.None? || m.value.value.Finite? then Found(m) else EmptyBody
  }

  class Handler {
    const ms: MemStorage
    const dumpToFile: bool

    constructor (ms: MemStorage, dump: bool)
      ensures this.ms == ms && dumpToFile == dump
    {
      this.ms, dumpToFile := ms, dump;
    }

    /** POST /update/. Database errors are not looked at, and with dumpToFile
        the snapshot is written before the answer. */
    method UpdateMetrics(metric: Metrics, io: WriteOutcome) returns (reply: Reply)
      modifies ms.Frame(), ms.disk
      ensures ms.gauges.NilMap? == old(ms.gauges.NilMap?) && ms.counters.NilMap? == old(ms.counters.NilMap?)
      ensures metric.value.None? && metric.delta.None? ==> reply == Status(400)
      ensures metric.value.Some? || metric.delta.Some? ==>
        reply == if Panics(metric, old(ms.gauges.NilMap?), old(ms.counters.NilMap?)) then Aborted else Status(200)
      ensures reply != Status(200) ==> ms.View() == old(ms.View())
      ensures reply == Status(200) ==>
        && ms.View() == Serve(old(ms.View()), HttpUpdate(metric).value, ms.SaveError(old(ms.Execs())))
        && ms.Execs() == ms.NextSave(old(ms.Execs()))
      ensures reply != Status(200) ==> ms.Execs() == old(ms.Execs())
      ensures dumpToFile && reply == Status(200) && AllFinite(Entries(ms.gauges)) ==>
        match io
        case Written => ms.disk.files == old(ms.disk.files)[ms.filepath := Encode(ms.gauges, ms.counters).value]
        case Refused => ms.disk.files == old(ms.disk.files)
        case Torn => ms.disk.files == old(ms.disk.files)[ms.filepath := Malformed]
      ensures !dumpToFile || reply != Status(200) || !AllFinite(Entries(ms.gauges)) ==>
        ms.disk.files == old(ms.disk.files)
    {
      if metric.value.None? && metric.delta.None? {
        return Status(400);
      }
      var o := StoreOne(ms, metric);
      if o.Panicked? {
        return Aborted;
      }
      if dumpToFile {
        var r := ms.FlushToFile(io);
      }
      reply := Status(200);
    }

    /** POST /updates/. Applies every metric, whatever the database says, up to
        the first that panics; the errors are those of the saves that the database
        fails, in order, and the answer is 200 iff there are none. */
    method UpdateMetricsBatch(metrics: seq<Metrics>) returns (reply: Reply, errs: seq<RetryError>, ghost saves: Saves)
      modifies ms.Frame()
      ensures ms.gauges.NilMap? == old(ms.gauges.NilMap?) && ms.counters.NilMap? == old(ms.counters.NilMap?)
      ensures PanicsAfter(|saves|, metrics, old(ms.gauges.NilMap?), old(ms.counters.NilMap?))
      ensures ms.View() == HttpServe(old(ms.View()), metrics, saves)
      ensures errs == ErrorsOf(saves) && saves == ms.ErrorsFrom(old(ms.Execs()), |saves|)
      ensures ms.Execs() == ms.ExecsAfter(old(ms.Execs()), |saves|)
      ensures ms.Healthy() ==> errs == [] && (|saves| == |metrics| ==> reply == Status(200))
      ensures ms.Healthy() && ms.db != null ==>
        ms.db.rows == old(ms.View()).journal.value + RowsOf(HttpUpdates(metrics, |saves|))
      ensures reply == if |saves| < |metrics| then Aborted else if AllSaved(saves) then Status(200) else Status(400)
    {
      ghost var w, from, gaugesNil, countersNil := ms.View(), ms.Execs(), ms.gauges.NilMap?, ms.counters.NilMap?;
      var panicked;
      panicked, errs, saves := StoreEach(ms, metrics);
      NoErrorsIffAllSaved(saves);
      WhenHealthy(ms, from, w, metrics, saves, gaugesNil, countersNil);
      reply := if panicked then Aborted else if |errs| > 0 then Status(400) else Status(200);
    }

    /** POST /value/. The other payload is left as it was asked; a value that
        is not finite cannot be encoded, so the 200 comes with an empty body. */
    method GetMetrics(metric: Metrics) returns (r: ValueReply)
      ensures metric.mtype == Gauge ==>
        && (r == NotFound <==> metric.id !in ms.Contents().gauges)
        && (r != NotFound ==> r == Encoded(metric.(value := Some(ms.Contents().gauges[metric.id]))))
      ensures metric.mtype != Gauge ==>
        && (r == NotFound <==> metric.id !in ms.Contents().counters)
        && (r != NotFound ==> r == Encoded(metric.(delta := Some(CounterOf(ms.Contents(), metric.id)))))
    {
      var found;
      if metric.mtype == Gauge {
        var val, ok := ms.GetGauge(metric.id);
        if !ok {
          return NotFound;
        }
        found := metric.(value := Some(val));
      } else {
        var val, ok := ms.GetCounter(metric.id);
        if !ok {
          return NotFound;
        }
        found := metric.(delta := Some(val));
      }
      r := Encoded(found);
    }
  }

  // ---------------------------------------------------------------- gRPC server

  datatype RpcReply = RpcOk | InvalidArgument | Internal | RpcAborted

  function GrpcUpdate(m: Metrics): Update
    requires WellTyped(m)
  {
    if m.mtype == Gauge then SetGauge(m.id, m.value.value) else AddCounter(m.id, m.delta.value)
  }

  /** The update a metric of a request means; an invalid one means nothing. */
  function WireUpdate(p: Option<WireMetric>): Option<Update> {
    var r := MetricFromProto(p);
    if r.Parsed? then Some(GrpcUpdate(r.metric)) else None
  }

  function WireUpdates(req: seq<Option<WireMetric>>, n: nat): seq<Update>
    requires n <= |req|
  {
    if n == 0 then []
    else WireUpdates(req, n - 1) + if WireUpdate(req[n - 1]).Some? then [WireUpdate(req[n - 1]).value] else []
  }

  /** The first n metrics of a request are all valid. */
  predicate ValidUpTo(req: seq<Option<WireMetric>>, n: nat)
    requires n <= |req|
  {
    n == 0 || (ValidUpTo(req, n - 1) && WireUpdate(req[n - 1]).Some?)
  }

  lemma {:induction false} ValidUpToMeans(req: seq<Option<WireMetric>>, n: nat)
    requires n <= |req|
    ensures ValidUpTo(req, n) <==> forall i :: 0 <= i < n ==> MetricFromProto(req[i]).Parsed?
  {
    if n > 0 {
      ValidUpToMeans(req, n - 1);
    }
  }

  /** The world after the first n metrics of a request were all saved. */
  function WireServe(w: World, req: seq<Option<WireMetric>>, n: nat): World
    requires n <= |req|
  {
    if n == 0 then w
    else
      var before := WireServe(w, req, n - 1);
      if WireUpdate(req[n - 1]).None? then before else Serve(before, WireUpdate(req[n - 1]).value, None)
  }

  lemma {:induction false} WireServeStore(w: World, req: seq<Option<WireMetric>>, n: nat)
    requires n <= |req|
    ensures WireServe(w, req, n).store == Replay(w.store, WireUpdates(req, n))
  {
    if n > 0 {
      WireServeStore(w, req, n - 1);
      var before := WireServe(w, req, n - 1);
      if WireUpdate(req[n - 1]).Some? {
        assert WireServe(w, req, n) == Serve(before, WireUpdate(req[n - 1]).value, None);
        ReplayOne(w.store, WireUpdates(req, n - 1), WireUpdate(req[n - 1]).value);
      } else {
        assert WireServe(w, req, n) == before;
        assert WireUpdates(req, n) == WireUpdates(req, n - 1);
      }
    }
  }

  /** What an answer says about how far the request was applied: n metrics in
      full, then nothing of one that is invalid, and the maps but no row of one
      whose save fails. */
  ghost predicate GrpcAnswer(reply: RpcReply, n: nat, req: seq<Option<WireMetric>>, gaugesNil: bool, countersNil: bool,
                             w: World, now: World)
  {
    && n <= |req| && ValidUpTo(req, n)
    && (reply != Internal ==> now == WireServe(w, req, n))
    && match reply
       case RpcOk => n == |req|
       case InvalidArgument => n < |req| && WireUpdate(req[n]).None?
       case Internal =>
         && n < |req| && WireUpdate(req[n]).Some? && w.journal.Some?
         && now.store == Apply(WireServe(w, req, n).store, WireUpdate(req[n]).value)
         && now.journal == WireServe(w, req, n).journal
       case RpcAborted =>
         n < |req| && WireUpdate(req[n]).Some? && HitsNil(WireUpdate(req[n]).value, gaugesNil, countersNil)
  }

  /** The body of the loop: one metric of a request. */
  method StoreWireMetric(storage: MemStorage, m: Option<WireMetric>) returns (reply: RpcReply)
    modifies storage.Frame()
    ensures storage.gauges.NilMap? == old(storage.gauges.NilMap?)
    ensures storage.counters.NilMap? == old(storage.counters.NilMap?)
    ensures reply == InvalidArgument <==> WireUpdate(m).None?
    ensures reply == RpcAborted <==>
      WireUpdate(m).Some? && HitsNil(WireUpdate(m).value, old(storage.gauges.NilMap?), old(storage.counters.NilMap?))
    ensures reply == InvalidArgument || reply == RpcAborted ==> storage.View() == old(storage.View())
    ensures reply == RpcOk ==> storage.View() == Serve(old(storage.View()), WireUpdate(m).value, None)
    ensures reply == Internal ==>
      && storage.Contents() == Apply(old(storage.Contents()), WireUpdate(m).value)
      && storage.Journal() == old(storage.Journal())
    ensures reply == Internal ==> storage.SaveError(old(storage.Execs())).Some?
    ensures reply == RpcOk ==> storage.SaveError(old(storage.Execs())).None?
    ensures storage.Execs() ==
      if reply == RpcOk || reply == Internal then storage.NextSave(old(storage.Execs())) else old(storage.Execs())
  {
    var p := MetricFromProto(m);
    if !p.Parsed? {
      return InvalidArgument;
    }
    var o := Perform(storage, GrpcUpdate(p.metric));
    match o
    case Done => reply := RpcOk;
    case Failed(_) => reply := Internal;
    case Panicked => reply := RpcAborted;
  }

  /** The database took the saves of the first n metrics and, if the answer is
      Internal, failed that of the next. */
  ghost predicate SavedUpTo(storage: MemStorage, reply: RpcReply, n: nat, from: nat, now: nat) {
    && AllSaved(storage.ErrorsFrom(from, n))
    && (reply == Internal ==> storage.SaveError(storage.ExecsAfter(from, n)).Some?)
    && now == storage.ExecsAfter(from, if reply == Internal then n + 1 else n)
  }

  lemma SavedMore(storage: MemStorage, n: nat, from: nat)
    requires AllSaved(storage.ErrorsFrom(from, n)) && storage.SaveError(storage.ExecsAfter(from, n)).None?
    ensures AllSaved(storage.ErrorsFrom(from, n + 1))
    ensures storage.ExecsAfter(from, n + 1) == storage.NextSave(storage.ExecsAfter(from, n))
  {
  }

  /** What is known when n metrics of the request were served in full. */
  ghost predicate ServedSo(storage: MemStorage, w: World, from: nat, req: seq<Option<WireMetric>>, gaugesNil: bool,
                           countersNil: bool, n: nat)
    reads storage.Frame()
  {
    && storage.gauges.NilMap? == gaugesNil && storage.counters.NilMap? == countersNil
    && n <= |req| && ValidUpTo(req, n) && storage.View() == WireServe(w, req, n)
    && SavedUpTo(storage, RpcOk, n, from, storage.Execs()) && (w.journal.Some? <==> storage.db != null)
  }

  method ServeNext(storage: MemStorage, req: seq<Option<WireMetric>>, n: nat, ghost w: World, ghost from: nat,
                   ghost gaugesNil: bool, ghost countersNil: bool)
    returns (reply: RpcReply)
    requires ServedSo(storage, w, from, req, gaugesNil, countersNil, n) && n < |req|
    modifies storage.Frame()
    ensures reply == RpcOk ==> ServedSo(storage, w, from, req, gaugesNil, countersNil, n + 1)
    ensures reply != RpcOk ==> GrpcAnswer(reply, n, req, gaugesNil, countersNil, w, storage.View())
    ensures reply != RpcOk ==> SavedUpTo(storage, reply, n, from, storage.Execs())
  {
    reply := StoreWireMetric(storage, req[n]);
    if reply == RpcOk {
      SavedMore(storage, n, from);
    }
  }

  class MetricsService {
    const storage: MemStorage

    constructor (storage: MemStorage)
      ensures this.storage == storage
    {
      this.storage := storage;
    }

    /** Stops at the first metric that fails, having served n in full. */
    method UpdateMetrics(request: Option<seq<Option<WireMetric>>>) returns (reply: RpcReply, ghost n: nat)
      modifies storage.Frame()
      ensures request.None? ==> reply == InvalidArgument && storage.View() == old(storage.View())
      ensures request.Some? ==>
        GrpcAnswer(reply, n, request.value, old(storage.gauges.NilMap?), old(storage.counters.NilMap?),
                   old(storage.View()), storage.View())
      ensures request.Some? ==> SavedUpTo(storage, reply, n, old(storage.Execs()), storage.Execs())
    {
      n := 0;
      if request.None? {
        return InvalidArgument, n;
      }
      ghost var w, from := storage.View(), storage.Execs();
      ghost var gaugesNil, countersNil := storage.gauges.NilMap?, storage.counters.NilMap?;
      var req := request.value;
      for i := 0 to |req|
        invariant n == i && ServedSo(storage, w, from, req, gaugesNil, countersNil, i)
      {
        reply := ServeNext(storage, req, i, w, from, gaugesNil, countersNil);
        if reply != RpcOk {
          return reply, n;
        }
        n := n + 1;
      }
      reply := RpcOk;
    }
  }

  // ---------------------------------------------------------------- one meaning

  predicate Proper(m: Metrics) {
    m.id != "" && WellTyped(m)
  }

  predicate AllProper(batch: seq<Metrics>) {
    forall i :: 0 <= i < |batch| ==> Proper(batch[i])
  }

  /** What a proper batch means. */
  function Meaning(batch: seq<Metrics>): (us: seq<Update>)
    requires AllProper(batch)
    ensures |us| == |batch|
  {
    seq(|batch|, i requires 0 <= i < |batch| => GrpcUpdate(batch[i]))
  }

  lemma {:induction false} HttpMeaning(batch: seq<Metrics>, n: nat)
    requires AllProper(batch) && n <= |batch|
    ensures HttpUpdates(batch, n) == Meaning(batch)[..n]
  {
    if n > 0 {
      HttpMeaning(batch, n - 1);
      assert Proper(batch[n - 1]) && Meaning(batch)[n - 1] == GrpcUpdate(batch[n - 1]);
      TakeOneMore(Meaning(batch), n - 1);
    }
  }

  /** Client conversion followed by the server. */
  lemma {:induction false} GrpcMeaning(batch: seq<Metrics>, req: seq<Option<WireMetric>>, n: nat)
    requires AllProper(batch) && |batch| == |req| && n <= |batch|
    requires forall i :: 0 <= i < |batch| ==> req[i] == TransformMetricToProto(batch[i])
    ensures WireUpdates(req, n) == Meaning(batch)[..n]
  {
    if n > 0 {
      GrpcMeaning(batch, req, n - 1);
      assert Proper(batch[n - 1]) && Meaning(batch)[n - 1] == GrpcUpdate(batch[n - 1]);
      assert WireUpdate(req[n - 1]) == Some(GrpcUpdate(batch[n - 1]));
      TakeOneMore(Meaning(batch), n - 1);
    }
  }

  /** A proper batch never panics, so all of it is applied. */
  lemma HttpEffect(batch: seq<Metrics>, saves: Saves, w: World)
    requires AllProper(batch) && PanicsAfter(|saves|, batch, false, false)
    ensures |saves| == |batch| && HttpServe(w, batch, saves).store == Replay(w.store, Meaning(batch))
  {
    assert forall i :: 0 <= i < |batch| ==> Proper(batch[i]) && !Panics(batch[i], false, false);
    HttpServeStore(w, batch, saves);
    HttpMeaning(batch, |saves|);
    assert Meaning(batch)[..|batch|] == Meaning(batch);
  }

  /** The single-metric handler, once for each metric; its writes meet ios. */
  method SendSingly(h: Handler, batch: seq<Metrics>, ios: seq<WriteOutcome>)
    requires BothMade(h.ms) && AllProper(batch) && |ios| == |batch|
    modifies h.ms.Frame(), h.ms.disk
    ensures h.ms.Contents() == Replay(old(h.ms.Contents()), Meaning(batch))
  {
    for i := 0 to |batch|
      invariant BothMade(h.ms)
      invariant h.ms.Contents() == Replay(old(h.ms.Contents()), Meaning(batch)[..i])
    {
      assert Proper(batch[i]);
      var reply := h.UpdateMetrics(batch[i], ios[i]);
      assert reply == Status(200) && HttpUpdate(batch[i]) == Some(Meaning(batch)[i]);
      TakeOneMore(Meaning(batch), i);
      ReplayOne(old(h.ms.Contents()), Meaning(batch)[..i], Meaning(batch)[i]);
    }
    assert Meaning(batch)[..|batch|] == Meaning(batch);
  }

  /** How much of a converted proper batch an answer says was applied. */
  function Applied(reply: RpcReply, n: nat): nat {
    if reply == Internal then n + 1 else n
  }

  lemma GrpcPrefix(batch: seq<Metrics>, req: seq<Option<WireMetric>>, n: nat, w: World)
    requires AllProper(batch) && |batch| == |req| && n <= |batch|
    requires forall i :: 0 <= i < |batch| ==> req[i] == TransformMetricToProto(batch[i])
    ensures WireServe(w, req, n).store == Replay(w.store, Meaning(batch)[..n])
  {
    WireServeStore(w, req, n);
    GrpcMeaning(batch, req, n);
  }

  lemma GrpcOneMore(batch: seq<Metrics>, req: seq<Option<WireMetric>>, n: nat, w: World)
    requires AllProper(batch) && |batch| == |req| && n < |batch|
    requires forall i :: 0 <= i < |batch| ==> req[i] == TransformMetricToProto(batch[i])
    ensures WireUpdate(req[n]).Some?
    ensures Apply(WireServe(w, req, n).store, WireUpdate(req[n]).value) == Replay(w.store, Meaning(batch)[..n + 1])
  {
    GrpcPrefix(batch, req, n, w);
    assert Proper(batch[n]) && Meaning(batch)[n] == GrpcUpdate(batch[n]);
    TakeOneMore(Meaning(batch), n);
    ReplayOne(w.store, Meaning(batch)[..n], Meaning(batch)[n]);
  }

  lemma GrpcEffect(batch: seq<Metrics>, req: seq<Option<WireMetric>>, reply: RpcReply, n: nat, w: World, now: World)
    requires AllProper(batch) && |batch| == |req|
    requires forall i :: 0 <= i < |batch| ==> req[i] == TransformMetricToProto(batch[i])
    requires GrpcAnswer(reply, n, req, false, false, w, now)
    ensures Applied(reply, n) <= |batch| && now.store == Replay(w.store, Meaning(batch)[..Applied(reply, n)])
    ensures if w.journal.None? then reply == RpcOk else reply == RpcOk || reply == Internal
    ensures reply == RpcOk ==> n == |batch|
  {
    GrpcPrefix(batch, req, n, w);
    if n < |batch| {
      GrpcOneMore(batch, req, n, w);
    }
  }

  /** gRPC client and server back to back: a prefix of the batch is applied,
      and all of it when the answer is no error. */
  method SendByRpc(client: GRPCClient, server: MetricsService, batch: seq<Metrics>)
    returns (reply: RpcReply, ghost n: nat)
    requires BothMade(server.storage) && AllProper(batch)
    modifies server.storage.Frame(), client
    ensures n <= |batch| && server.storage.Contents() == Replay(old(server.storage.Contents()), Meaning(batch)[..n])
    ensures reply == RpcOk ==> n == |batch|
    ensures reply != RpcOk ==> reply == Internal && n > 0 && !server.storage.Healthy()
  {
    assert forall i :: 0 <= i < |batch| ==> Proper(batch[i]) && WellTyped(batch[i]);
    var r := client.UpdateMetrics(batch, true);
    var wire := client.requests[|client.requests| - 1];
    var req := seq(|wire|, i requires 0 <= i < |wire| => Some(wire[i]));
    reply, n := server.UpdateMetrics(Some(req));
    GrpcEffect(batch, req, reply, n, old(server.storage.View()), server.storage.View());
    if server.storage.Healthy() && server.storage.db != null {
      assert server.storage.SaveError(server.storage.ExecsAfter(old(server.storage.Execs()), n)).None?;
    }
    n := Applied(reply, n);
  }

  /** The same proper batch to three servers with the same maps, by three
      transports: both HTTP ways end with the same maps whatever the databases
      and the writes do, and so does gRPC when it answers without error, as it always does
      with a healthy database or none. */
  method ThreeTransports(batch: seq<Metrics>, ios: seq<WriteOutcome>,
                         a: Handler, b: Handler, c: MetricsService, client: GRPCClient)
    returns (reply: RpcReply)
    requires a.ms.Frame() !! b.ms.Frame() !! c.storage.Frame() !! {client as object}
    requires a.ms.Contents() == b.ms.Contents() == c.storage.Contents()
    requires BothMade(a.ms) && BothMade(b.ms) && BothMade(c.storage) && AllProper(batch) && |ios| == |batch|
    modifies a.ms.Frame(), b.ms.Frame(), c.storage.Frame(), client, b.ms.disk
    ensures a.ms.Contents() == Replay(old(a.ms.Contents()), Meaning(batch))
    ensures b.ms.Contents() == a.ms.Contents()
    ensures reply == RpcOk ==> c.storage.Contents() == a.ms.Contents()
    ensures c.storage.Healthy() ==> reply == RpcOk
  {
    var ra, errs, saves := a.UpdateMetricsBatch(batch);
    HttpEffect(batch, saves, old(a.ms.View()));
    SendSingly(b, batch, ios);
    ghost var n;
    reply, n := SendByRpc(client, c, batch);
    assert Meaning(batch)[..|batch|] == Meaning(batch);
  }

  // ---------------------------------------------------------------- there and back

  /** What POST /value/ answers after the metric m came to a store with a counter
      of before: the gauge as it was sent, or the sum. */
  predicate Shows(r: ValueReply, ask: Metrics, m: Metrics, before: int) {
    if m.mtype == Gauge then
      m.value.Some? && r == if m.value.value.Finite? then Found(ask.(value := m.value)) else EmptyBody
    else
      m.delta.Some? && r == Found(ask.(delta := Some(Wrap64(before + m.delta.value))))
  }

  /** A metric to POST /update/ and the question for it. */
  method PostThenAsk(h: Handler, m: Metrics, io: WriteOutcome, ask: Metrics) returns (reply: Reply, r: ValueReply)
    requires BothMade(h.ms) && (if m.mtype == Gauge then m.value.Some? else m.delta.Some?)
    requires ask.id == m.id && ask.value.None? && (ask.mtype == Gauge <==> m.mtype == Gauge)
    modifies h.ms.Frame(), h.ms.disk
    ensures reply == Status(200) && Shows(r, ask, m, old(CounterOf(h.ms.Contents(), m.id)))
  {
    reply := h.UpdateMetrics(m, io);
    r := h.GetMetrics(ask);
  }

  /** The same over gRPC: also when the save failed, the metric is there. */
  method RpcThenAsk(client: GRPCClient, server: MetricsService, h: Handler, m: Metrics, ask: Metrics)
    returns (reply: RpcReply, r: ValueReply)
    requires BothMade(h.ms) && server.storage == h.ms && Proper(m)
    requires ask.id == m.id && ask.value.None? && (ask.mtype == Gauge <==> m.mtype == Gauge)
    modifies h.ms.Frame(), client
    ensures reply == RpcOk || reply == Internal
    ensures Shows(r, ask, m, old(CounterOf(h.ms.Contents(), m.id)))
  {
    ghost var n;
    ghost var before := h.ms.Contents();
    reply, n := SendByRpc(client, server, [m]);
    assert Meaning([m])[..1] == [GrpcUpdate(m)];
    ReplayOne(before, [], GrpcUpdate(m));
    assert [] + [GrpcUpdate(m)] == [GrpcUpdate(m)];
    r := h.GetMetrics(ask);
  }
}
