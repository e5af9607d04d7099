/** From the agent's polls to the server's counter: the client calls of a run of
    the agent over the link that loses requests and answers, with any number of
    senders. */
module AgentReports {
  import opened Numbers
  import opened Options
  import opened Lists
  import opened Updates
  import opened RetryLoops
  import opened Storage
  import opened Transports
  import opened Delivery
  import opened AgentCalls
  import A = Agent
  import P = AgentPolls

  // ---------------------------------------------------------------- bodies

  /** A message as it was serialised. */
  function MetricOf(h: A.Handed): Metrics {
    match h.item.msg
    case GaugeMessage(id, value) => Metrics(id, Gauge, None, Some(value), "")
    case PollCount => Metrics(P.POLL_COUNT, Counter, Some(h.delta), None, "")
  }

  function MetricsOf(hs: seq<A.Handed>, call: seq<nat>): seq<Metrics>
    requires P.LogOf(call, hs)
  {
    seq(|call|, i requires 0 <= i < |call| => MetricOf(hs[call[i]]))
  }

  /** A client call is a batch, or one message outside batch mode. */
  ghost predicate IsCall(hs: seq<A.Handed>, call: seq<nat>, batchMode: bool) {
    P.LogOf(call, hs) && (!batchMode ==> |call| == 1)
  }

  function BodyOf(hs: seq<A.Handed>, call: seq<nat>, batchMode: bool): Body
    requires IsCall(hs, call, batchMode)
  {
    if batchMode then Many(MetricsOf(hs, call)) else One(MetricOf(hs[call[0]]))
  }

  lemma {:induction false} AppliedAt(hs: seq<A.Handed>, log: seq<nat>)
    requires P.LogOf(log, hs)
    ensures |P.Applied(hs, log)| == |log|
    ensures forall i :: 0 <= i < |log| ==> P.Applied(hs, log)[i] == P.UpdateOf(hs[log[i]])
  {
    if log != [] {
      AppliedAt(hs, log[..|log| - 1]);
    }
  }

  lemma AllReadable(ms: seq<Metrics>, us: seq<Update>)
    requires |ms| == |us| && forall i :: 0 <= i < |ms| ==> HttpUpdate(ms[i]) == Some(us[i])
    ensures Effect(Many(ms)) == us
  {
    assert Readable(ms) == |ms|;
  }

  lemma MessagesMean(hs: seq<A.Handed>, call: seq<nat>)
    requires P.LogOf(call, hs)
    ensures Effect(Many(MetricsOf(hs, call))) == P.Applied(hs, call)
  {
    AppliedAt(hs, call);
    AllReadable(MetricsOf(hs, call), P.Applied(hs, call));
  }

  /** The server makes of the body what the messages say. */
  lemma EffectOfCall(hs: seq<A.Handed>, call: seq<nat>, batchMode: bool)
    requires IsCall(hs, call, batchMode)
    ensures Effect(BodyOf(hs, call, batchMode)) == P.Applied(hs, call)
  {
    MessagesMean(hs, call);
    if !batchMode {
      assert MetricsOf(hs, call) == [MetricOf(hs[call[0]])];
    }
  }

  /** No message lacks its payload. */
  lemma BodyIsSound(hs: seq<A.Handed>, call: seq<nat>, batchMode: bool)
    requires IsCall(hs, call, batchMode)
    ensures Sound(BodyOf(hs, call, batchMode))
  {
    if batchMode {
      AppliedAt(hs, call);
      assert forall i :: 0 <= i < |call| ==> HttpUpdate(MetricsOf(hs, call)[i]).Some?;
    }
  }

  // ---------------------------------------------------------------- the calls of a run

  lemma CallsOfTheRun(s: A.State)
    requires A.Reachable(s)
    ensures forall k :: 0 <= k < |s.calls| ==> IsCall(s.handed, s.calls[k], s.batchMode)
  {
    forall k | 0 <= k < |s.calls| ensures IsCall(s.handed, s.calls[k], s.batchMode) {
      CallsPartitionTheHistory(s, 0);
      forall i | 0 <= i < |s.calls[k]| ensures s.calls[k][i] < |s.handed| {
        var x := s.calls[k][i];
        CallsPartitionTheHistory(s, x);
        PartOfTotal<nat>(s.calls, k, x);
        assert x in s.calls[k];
      }
    }
  }

  /** Its bodies, in the order in which they were complete. */
  ghost function BodiesOf(s: A.State): (r: seq<Body>)
    requires A.Reachable(s)
    ensures |r| == |s.calls|
    ensures forall k :: 0 <= k < |r| ==> Sound(r[k]) && (r[k].One? <==> !s.batchMode)
  {
    CallsOfTheRun(s);
    assert forall k :: 0 <= k < |s.calls| ==> Sound(BodyOf(s.handed, s.calls[k], s.batchMode)) by {
      forall k | 0 <= k < |s.calls| ensures Sound(BodyOf(s.handed, s.calls[k], s.batchMode)) {
        BodyIsSound(s.handed, s.calls[k], s.batchMode);
      }
    }
    seq(|s.calls|, k requires 0 <= k < |s.calls| => BodyOf(s.handed, s.calls[k], s.batchMode))
  }

  // ---------------------------------------------------------------- arrivals

  /** Call numbers, in the order in which bodies arrive, retried ones again. */
  ghost predicate AreArrivals(arrivals: seq<nat>, count: nat) {
    forall i :: 0 <= i < |arrivals| ==> arrivals[i] < count
  }

  /** The store after the arrivals. */
  function Arrived(st: Store, bodies: seq<Body>, arrivals: seq<nat>): Store
    requires AreArrivals(arrivals, |bodies|)
  {
    if arrivals == [] then st
    else
      var n := |arrivals| - 1;
      Replay(Arrived(st, bodies, arrivals[..n]), Effect(bodies[arrivals[n]]))
  }

  lemma ArrivedOneMore(st: Store, bodies: seq<Body>, arrivals: seq<nat>, k: nat)
    requires AreArrivals(arrivals, |bodies|) && k < |bodies|
    ensures AreArrivals(arrivals + [k], |bodies|)
    ensures Arrived(st, bodies, arrivals + [k]) == Replay(Arrived(st, bodies, arrivals), Effect(bodies[k]))
  {
    assert (arrivals + [k])[..|arrivals|] == arrivals;
  }

  /** The messages that the arrivals bring. */
  function Gather(calls: seq<seq<nat>>, arrivals: seq<nat>): seq<nat>
    requires AreArrivals(arrivals, |calls|)
  {
    if arrivals == [] then []
    else
      var n := |arrivals| - 1;
      Gather(calls, arrivals[..n]) + calls[arrivals[n]]
  }

  lemma {:induction false} AppliedConcat(hs: seq<A.Handed>, a: seq<nat>, b: seq<nat>)
    requires P.LogOf(a, hs) && P.LogOf(b, hs)
    ensures P.LogOf(a + b, hs) && P.Applied(hs, a + b) == P.Applied(hs, a) + P.Applied(hs, b)
  {
    AppliedAt(hs, a);
    AppliedAt(hs, b);
    AppliedAt(hs, a + b);
  }

  /** The server makes of the arrivals what their messages mean. */
  lemma {:induction false} ArrivedMeans(s: A.State, arrivals: seq<nat>)
    requires A.Reachable(s) && AreArrivals(arrivals, |s.calls|)
    ensures P.LogOf(Gather(s.calls, arrivals), s.handed)
    ensures Arrived(EMPTY, BodiesOf(s), arrivals) == Replay(EMPTY, P.Applied(s.handed, Gather(s.calls, arrivals)))
  {
    if arrivals != [] {
      var n := |arrivals| - 1;
      var front, k := arrivals[..n], arrivals[n];
      CallsOfTheRun(s);
      ArrivedMeans(s, front);
      EffectOfCall(s.handed, s.calls[k], s.batchMode);
      AppliedConcat(s.handed, Gather(s.calls, front), s.calls[k]);
      ReplayConcat(EMPTY, P.Applied(s.handed, Gather(s.calls, front)), P.Applied(s.handed, s.calls[k]));
    }
  }

  /** A call that arrives twice is in the list twice. */
  function Arrivals(arrivals: seq<nat>, k: nat): nat {
    multiset(arrivals)[k]
  }

  /** A message that is in call c only arrives as often as c does. */
  lemma {:induction false} ArrivesWithItsCall(calls: seq<seq<nat>>, arrivals: seq<nat>, c: nat, x: nat)
    requires AreArrivals(arrivals, |calls|)
    requires forall k :: 0 <= k < |calls| ==> multiset(calls[k])[x] == if k == c then 1 else 0
    ensures multiset(Gather(calls, arrivals))[x] == Arrivals(arrivals, c)
  {
    if arrivals != [] {
      var n := |arrivals| - 1;
      ArrivesWithItsCall(calls, arrivals[..n], c, x);
      LastOfMultiset<nat>(arrivals);
    }
  }

  lemma OnlyInOneCall(calls: seq<seq<nat>>, c: nat, x: nat)
    requires Total<nat>(calls)[x] <= 1 && c < |calls| && x in calls[c]
    ensures forall k :: 0 <= k < |calls| ==> multiset(calls[k])[x] == if k == c then 1 else 0
  {
    PartOfTotal<nat>(calls, c, x);
    assert x in multiset(calls[c]);
    forall k | 0 <= k < |calls| && k != c ensures multiset(calls[k])[x] == 0 {
      TwoPartsOfTotal<nat>(calls, if k < c then k else c, if k < c then c else k, x);
    }
  }

  lemma {:induction false} GatherMember(calls: seq<seq<nat>>, arrivals: seq<nat>, x: nat) returns (c: nat)
    requires AreArrivals(arrivals, |calls|) && x in Gather(calls, arrivals)
    ensures c < |calls| && c in arrivals && x in calls[c]
  {
    var n := |arrivals| - 1;
    if x in calls[arrivals[n]] {
      c := arrivals[n];
    } else {
      c := GatherMember(calls, arrivals[..n], x);
    }
  }

  /** No message arrives more often than its call. */
  lemma GatherCounts(calls: seq<seq<nat>>, arrivals: seq<nat>, most: nat, x: nat)
    requires AreArrivals(arrivals, |calls|) && Total<nat>(calls)[x] <= 1
    requires forall k :: 0 <= k < |calls| ==> Arrivals(arrivals, k) <= most
    ensures multiset(Gather(calls, arrivals))[x] <= most
  {
    if x in Gather(calls, arrivals) {
      var c := GatherMember(calls, arrivals, x);
      OnlyInOneCall(calls, c, x);
      ArrivesWithItsCall(calls, arrivals, c, x);
    }
  }

  lemma {:induction false} CallIsGathered(calls: seq<seq<nat>>, arrivals: seq<nat>, c: nat, x: nat)
    requires AreArrivals(arrivals, |calls|) && c in arrivals && c < |calls| && x in calls[c]
    ensures x in Gather(calls, arrivals)
  {
    var n := |arrivals| - 1;
    if arrivals[n] != c {
      CallIsGathered(calls, arrivals[..n], c, x);
    }
  }

  // ---------------------------------------------------------------- counting

  lemma AtMostProduct(a: nat, b: nat, p: nat)
    requires a <= b
    ensures a * p <= b * p
  {
    assert b * p == a * p + (b - a) * p;
  }

  /** At most most copies of each of ds. */
  lemma {:induction false} FewKinds(m: multiset<nat>, ds: seq<nat>, most: nat)
    requires forall x :: x in m ==> x in ds && m[x] <= most
    ensures |m| <= |ds| * most
  {
    if ds == [] {
      assert m == multiset{};
    } else {
      var front, d := ds[..|ds| - 1], ds[|ds| - 1];
      assert ds == front + [d];
      FewKinds(m[d := 0], front, most);
      OneTimeMore(|ds|, most);
    }
  }

  lemma DifferentCountsOnce(xs: seq<nat>, x: nat)
    requires P.AllDifferent(xs)
    ensures multiset(xs)[x] <= 1
  {
    if x in xs {
      var i :| 0 <= i < |xs| && xs[i] == x;
      WithoutAsMultiset(xs, i);
      assert x !in Without(xs, i);
    }
  }

  lemma NoMoreKinds(xs: seq<nat>, ys: seq<nat>)
    requires P.AllDifferent(xs) && forall x :: x in xs ==> x in ys
    ensures |xs| <= |ys|
  {
    var counts: multiset<nat> := multiset(xs);
    forall x: nat | x in xs ensures x in ys && counts[x] <= 1 {
      DifferentCountsOnce(xs, x);
    }
    FewKinds(counts, ys, 1);
    assert |counts| == |xs|;
  }

  /** How many PollCount messages reached the server at least once. */
  function Reached(hs: seq<A.Handed>, log: seq<nat>): nat
    requires P.LogOf(log, hs)
  {
    |P.Distinct(P.PollsIn(hs, log))|
  }

  lemma FewApplications(hs: seq<A.Handed>, log: seq<nat>, most: nat)
    requires P.LogOf(log, hs) && forall x: nat :: Arrivals(log, x) <= most
    ensures |P.PollsIn(hs, log)| <= Reached(hs, log) * most
  {
    var polls := P.PollsIn(hs, log);
    var counts: multiset<nat> := multiset(polls);
    forall x: nat ensures counts[x] <= most {
      P.PollCounts(hs, log, x);
      assert Arrivals(log, x) <= most;
    }
    FewKinds(counts, P.Distinct(polls), most);
    assert |counts| == |polls|;
  }

  // ---------------------------------------------------------------- end to end

  /** n PollCount messages, each applied at most three times, in any order: an
      empty server's counter ends between 1 + ... + n and three times n times the
      polls. */
  lemma RetriedPollCount(s: A.State, log: seq<nat>)
    requires A.Reachable(s) && P.LogOf(log, s.handed) && forall x: nat :: Arrivals(log, x) <= MAX_RETRY
    ensures
      var n := Reached(s.handed, log);
      s.polls < TWO_63 && MAX_RETRY * n * s.polls < TWO_63 ==>
        P.Triangle(n) <= CounterOf(Replay(EMPTY, P.Applied(s.handed, log)), P.POLL_COUNT) <= MAX_RETRY * n * s.polls
  {
    FewApplications(s.handed, log, MAX_RETRY);
    var n := Reached(s.handed, log);
    AtMostProduct(|P.PollsIn(s.handed, log)|, MAX_RETRY * n, s.polls);
    if s.polls < TWO_63 && MAX_RETRY * n * s.polls < TWO_63 {
      P.PollCountBounds(s, log);
    }
  }

  /** The calls of the run arrive in any order and up to three times each, and
      the messages of different arrivals may even be applied in turns. */
  lemma InterleavedPollCount(s: A.State, arrivals: seq<nat>, log: seq<nat>)
    requires A.Reachable(s) && AreArrivals(arrivals, |s.calls|)
    requires forall k :: 0 <= k < |s.calls| ==> Arrivals(arrivals, k) <= MAX_RETRY
    requires multiset(log) == multiset(Gather(s.calls, arrivals))
    ensures P.LogOf(log, s.handed)
    ensures
      var n := Reached(s.handed, log);
      s.polls < TWO_63 && MAX_RETRY * n * s.polls < TWO_63 ==>
        P.Triangle(n) <= CounterOf(Replay(EMPTY, P.Applied(s.handed, log)), P.POLL_COUNT) <= MAX_RETRY * n * s.polls
  {
    ArrivedMeans(s, arrivals);
    SameMembers(log, Gather(s.calls, arrivals));
    forall x: nat ensures Arrivals(log, x) <= MAX_RETRY {
      CallsPartitionTheHistory(s, x);
      GatherCounts(s.calls, arrivals, MAX_RETRY, x);
      assert Arrivals(log, x) == Arrivals(Gather(s.calls, arrivals), x);
    }
    RetriedPollCount(s, log);
  }

  lemma SameMembers(xs: seq<nat>, ys: seq<nat>)
    requires multiset(xs) == multiset(ys)
    ensures forall i :: 0 <= i < |xs| ==> xs[i] in ys
  {
    forall i | 0 <= i < |xs| ensures xs[i] in ys {
      assert xs[i] in multiset(ys);
    }
  }

  /** The PollCount messages of the calls of the run. */
  ghost function PollsOfCalls(s: A.State): seq<nat>
    requires A.Reachable(s)
  {
    ArrivedMeans(s, Iota(|s.calls|));
    P.PollsIn(s.handed, Gather(s.calls, Iota(|s.calls|)))
  }

  lemma PollsGrow(s: A.State, arrivals: seq<nat>, more: seq<nat>)
    requires AreArrivals(arrivals, |s.calls|) && AreArrivals(more, |s.calls|)
    requires P.LogOf(Gather(s.calls, arrivals), s.handed) && P.LogOf(Gather(s.calls, more), s.handed)
    requires forall k :: k in arrivals ==> k in more
    ensures Reached(s.handed, Gather(s.calls, arrivals)) <= Reached(s.handed, Gather(s.calls, more))
  {
    var log, log' := Gather(s.calls, arrivals), Gather(s.calls, more);
    forall x | x in P.PollsIn(s.handed, log) ensures x in P.PollsIn(s.handed, log') {
      P.PollCounts(s.handed, log, x);
      P.PollCounts(s.handed, log', x);
      var c := GatherMember(s.calls, arrivals, x);
      CallIsGathered(s.calls, more, c, x);
    }
    NoMoreKinds(P.Distinct(P.PollsIn(s.handed, log)), P.Distinct(P.PollsIn(s.handed, log')));
  }

  lemma IotaHas(n: nat)
    ensures forall k: nat :: k < n <==> k in Iota(n)
  {
    forall k: nat | k < n ensures k in Iota(n) {
      assert Iota(n)[k] == k;
    }
  }

  lemma EachOnce(s: A.State)
    requires A.Reachable(s) && P.LogOf(Gather(s.calls, Iota(|s.calls|)), s.handed)
    ensures Reached(s.handed, Gather(s.calls, Iota(|s.calls|))) == |PollsOfCalls(s)|
  {
    var log := Gather(s.calls, Iota(|s.calls|));
    forall x: nat ensures Arrivals(log, x) <= 1 {
      CallsPartitionTheHistory(s, x);
      forall k | 0 <= k < |s.calls| ensures Arrivals(Iota(|s.calls|), k) <= 1 {
        IotaOnce(|s.calls|, k);
      }
      GatherCounts(s.calls, Iota(|s.calls|), 1, x);
    }
    FewApplications(s.handed, log, 1);
  }

  /** No more messages reach the server than the calls have. */
  lemma NoMoreReach(s: A.State, arrivals: seq<nat>)
    requires A.Reachable(s) && AreArrivals(arrivals, |s.calls|)
    ensures P.LogOf(Gather(s.calls, arrivals), s.handed)
    ensures Reached(s.handed, Gather(s.calls, arrivals)) <= |PollsOfCalls(s)|
  {
    ArrivedMeans(s, arrivals);
    ArrivedMeans(s, Iota(|s.calls|));
    IotaHas(|s.calls|);
    PollsGrow(s, arrivals, Iota(|s.calls|));
    EachOnce(s);
  }

  /** All of them do if every call arrives. */
  lemma AllReach(s: A.State, arrivals: seq<nat>)
    requires A.Reachable(s) && AreArrivals(arrivals, |s.calls|)
    requires forall k :: 0 <= k < |s.calls| ==> k in arrivals
    ensures P.LogOf(Gather(s.calls, arrivals), s.handed)
    ensures Reached(s.handed, Gather(s.calls, arrivals)) == |PollsOfCalls(s)|
  {
    NoMoreReach(s, arrivals);
    ArrivedMeans(s, Iota(|s.calls|));
    IotaHas(|s.calls|);
    PollsGrow(s, Iota(|s.calls|), arrivals);
    EachOnce(s);
  }

  /** What holds of a server that began empty, after the arrivals. */
  ghost predicate Bounded(s: A.State, st: Store, n: nat, allOk: bool)
    requires A.Reachable(s)
  {
    && n <= |PollsOfCalls(s)| && (allOk ==> n == |PollsOfCalls(s)|)
    && (s.polls < TWO_63 && MAX_RETRY * n * s.polls < TWO_63 ==>
      P.Triangle(n) <= CounterOf(st, P.POLL_COUNT) <= MAX_RETRY * n * s.polls)
  }

  /** How many PollCount messages of the run the arrivals bring. */
  ghost function ReachedBy(s: A.State, arrivals: seq<nat>): nat
    requires A.Reachable(s) && AreArrivals(arrivals, |s.calls|)
  {
    ArrivedMeans(s, arrivals);
    Reached(s.handed, Gather(s.calls, arrivals))
  }

  predicate AllOk(oks: seq<bool>) {
    forall k :: 0 <= k < |oks| ==> oks[k]
  }

  /** No call arrives more than three times, and each that succeeds arrives. */
  ghost predicate FewArrivals(arrivals: seq<nat>, oks: seq<bool>) {
    forall k :: 0 <= k < |oks| ==> Arrivals(arrivals, k) <= MAX_RETRY && (oks[k] ==> k in arrivals)
  }

  lemma ArrivalsAreBounded(s: A.State, arrivals: seq<nat>, oks: seq<bool>)
    requires A.Reachable(s) && |oks| == |s.calls| && AreArrivals(arrivals, |s.calls|) && FewArrivals(arrivals, oks)
    ensures Bounded(s, Arrived(EMPTY, BodiesOf(s), arrivals), ReachedBy(s, arrivals), AllOk(oks))
  {
    NoMoreReach(s, arrivals);
    ArrivedMeans(s, arrivals);
    InterleavedPollCount(s, arrivals, Gather(s.calls, arrivals));
    if AllOk(oks) {
      AllReach(s, arrivals);
    }
  }

  // ---------------------------------------------------------------- one sender

  /** Each call as often as times says, one after the other. */
  function InTurn(times: seq<nat>): seq<nat> {
    if times == [] then []
    else
      var k := |times| - 1;
      InTurn(times[..k]) + Repeat<nat>([k], times[k])
  }

  lemma {:induction false} RepeatArrives(st: Store, bodies: seq<Body>, arrivals: seq<nat>, k: nat, n: nat)
    requires AreArrivals(arrivals, |bodies|) && k < |bodies|
    ensures AreArrivals(arrivals + Repeat<nat>([k], n), |bodies|)
    ensures Arrived(st, bodies, arrivals + Repeat<nat>([k], n))
         == HandledTimes(Arrived(st, bodies, arrivals), bodies[k], n)
  {
    if n == 0 {
      assert arrivals + Repeat<nat>([k], n) == arrivals;
    } else {
      RepeatArrives(st, bodies, arrivals, k, n - 1);
      Regroup<nat>(arrivals, Repeat<nat>([k], n - 1), [k]);
      ArrivedOneMore(st, bodies, arrivals + Repeat<nat>([k], n - 1), k);
    }
  }

  lemma {:induction false} RepeatedCall(k: nat, n: nat, j: nat)
    ensures Arrivals(Repeat<nat>([k], n), j) == if j == k then n else 0
  {
    if n > 0 {
      RepeatedCall(k, n - 1, j);
      assert multiset(Repeat<nat>([k], n)) == multiset(Repeat<nat>([k], n - 1)) + multiset{k};
    }
  }

  lemma {:induction false} ArrivedPrefix(st: Store, bodies: seq<Body>, m: nat, arrivals: seq<nat>)
    requires m <= |bodies| && AreArrivals(arrivals, m)
    ensures Arrived(st, bodies[..m], arrivals) == Arrived(st, bodies, arrivals)
  {
    if arrivals != [] {
      ArrivedPrefix(st, bodies, m, arrivals[..|arrivals| - 1]);
    }
  }

  /** The deliveries of one sequential sender are such arrivals. */
  lemma {:induction false} DeliveredInTurn(st: Store, bodies: seq<Body>, times: seq<nat>)
    requires |bodies| == |times|
    ensures AreArrivals(InTurn(times), |bodies|) && Arrived(st, bodies, InTurn(times)) == Delivered(st, bodies, times)
  {
    if bodies != [] {
      var k := |bodies| - 1;
      DeliveredInTurn(st, bodies[..k], times[..k]);
      ArrivedPrefix(st, bodies, k, InTurn(times[..k]));
      RepeatArrives(st, bodies, InTurn(times[..k]), k, times[k]);
    }
  }

  lemma {:induction false} InTurnCounts(times: seq<nat>, j: nat)
    ensures Arrivals(InTurn(times), j) == if j < |times| then times[j] else 0
  {
    if times != [] {
      var k := |times| - 1;
      InTurnCounts(times[..k], j);
      RepeatedCall(k, times[k], j);
      assert multiset(InTurn(times)) == multiset(InTurn(times[..k])) + multiset(Repeat<nat>([k], times[k]));
    }
  }

  lemma ArrivesOnce(arrivals: seq<nat>, k: nat)
    requires Arrivals(arrivals, k) >= 1
    ensures k in arrivals
  {
    assert k in multiset(arrivals);
  }

  lemma TimesAreArrivals(times: seq<nat>, oks: seq<bool>)
    requires FewTimes(times, oks)
    ensures FewArrivals(InTurn(times), oks)
  {
    forall k | 0 <= k < |times|
      ensures Arrivals(InTurn(times), k) <= MAX_RETRY && (oks[k] ==> k in InTurn(times))
    {
      InTurnCounts(times, k);
      if oks[k] {
        ArrivesOnce(InTurn(times), k);
      }
    }
  }

  lemma DeliveriesAreBounded(s: A.State, times: seq<nat>, oks: seq<bool>)
    requires A.Reachable(s) && |times| == |s.calls| && FewTimes(times, oks)
    ensures AreArrivals(InTurn(times), |s.calls|)
    ensures Bounded(s, Delivered(EMPTY, BodiesOf(s), times), ReachedBy(s, InTurn(times)), AllOk(oks))
  {
    DeliveredInTurn(EMPTY, BodiesOf(s), times);
    TimesAreArrivals(times, oks);
    ArrivalsAreBounded(s, InTurn(times), oks);
  }

  /** The calls of the run, sent one after the other to an empty server over the
      link. They all succeed over a responsive link, batches to a healthy server. */
  method Report(link: Link, bodies: seq<Body>, ghost s: A.State)
    returns (oks: seq<bool>, ghost trails: seq<seq<Attempt<int>>>, ghost times: seq<nat>)
    requires BothMade(link.handler.ms) && link.handler.ms.Contents() == EMPTY
    requires A.Reachable(s) && bodies == BodiesOf(s)
    modifies link.Footprint()
    ensures InSequence(link.fate, old(link.used), bodies, link.Healthy(), trails, times, oks, link.used)
    ensures link.handler.ms.Contents() == Delivered(EMPTY, bodies, times)
    ensures |oks| == |bodies| && AreArrivals(InTurn(times), |s.calls|)
    ensures Bounded(s, link.handler.ms.Contents(), ReachedBy(s, InTurn(times)), AllOk(oks))
    ensures (link.Healthy() || !s.batchMode) && Responsive(link.fate) ==> AllOk(oks)
  {
    ghost var from := link.used;
    oks, trails, times := SendAll(link, bodies);
    DeliveriesAreBounded(s, times, oks);
    if (link.Healthy() || !s.batchMode) && Responsive(link.fate) {
      ResponsiveSucceeds(link.fate, from, bodies, link.Healthy(), trails, times, oks, link.used);
    }
  }

  // ---------------------------------------------------------------- many senders

  /** The attempts so far: log says which call made each, answers what it heard,
      and arrivals lists the calls of those that arrived. */
  ghost predicate Made(fate: nat -> Fate, from: nat, bodies: seq<Body>, healthy: bool, log: seq<nat>,
                       answers: seq<Attempt<int>>, arrivals: seq<nat>)
    decreases |log|
  {
    && |answers| == |log|
    && if log == [] then arrivals == []
       else
         var j := |log| - 1;
         && log[j] < |bodies| && Answers(fate(from + j), bodies[log[j]], healthy, answers[j])
         && (fate(from + j).Arrives? ==> arrivals != [] && arrivals[|arrivals| - 1] == log[j])
         && Made(fate, from, bodies, healthy, log[..j], answers[..j],
                 if fate(from + j).Arrives? then arrivals[..|arrivals| - 1] else arrivals)
  }

  ghost predicate Heard(log: seq<nat>, answers: seq<Attempt<int>>, k: nat) {
    exists j :: 0 <= j < |log| && j < |answers| && log[j] == k && answers[j].Good?
  }

  ghost predicate HeardOk(log: seq<nat>, answers: seq<Attempt<int>>, k: nat) {
    exists j :: 0 <= j < |log| && j < |answers| && log[j] == k && answers[j] == Good(200)
  }

  /** After an answer a call makes no further attempt. */
  ghost predicate Stops(log: seq<nat>, answers: seq<Attempt<int>>) {
    |answers| == |log| && forall i, j :: 0 <= i < j < |log| && log[i] == log[j] ==> answers[i].Bad?
  }

  function AtMostThree(n: nat): nat {
    if n < 3 then n else 3
  }

  /** Call k used each of its turns, up to three, until it was answered. */
  ghost predicate UsesItsTurns(log: seq<nat>, answers: seq<Attempt<int>>, schedule: seq<nat>, k: nat) {
    && Arrivals(log, k) <= 3
    && (Heard(log, answers, k) || Arrivals(log, k) == AtMostThree(Arrivals(schedule, k)))
  }

  lemma LogOneMore(log: seq<nat>, answers: seq<Attempt<int>>, c: nat, a: Attempt<int>, k: nat)
    requires |answers| == |log|
    ensures Heard(log + [c], answers + [a], k) <==> Heard(log, answers, k) || (c == k && a.Good?)
    ensures HeardOk(log + [c], answers + [a], k) <==> HeardOk(log, answers, k) || (c == k && a == Good(200))
  {
    assert (log + [c])[|log|] == c && (answers + [a])[|log|] == a;
    assert forall j :: 0 <= j < |log| ==> (log + [c])[j] == log[j] && (answers + [a])[j] == answers[j];
  }

  lemma MadeOneMore(fate: nat -> Fate, from: nat, bodies: seq<Body>, healthy: bool, log: seq<nat>,
                    answers: seq<Attempt<int>>, arrivals: seq<nat>, c: nat, a: Attempt<int>)
    requires Made(fate, from, bodies, healthy, log, answers, arrivals)
    requires c < |bodies| && Answers(fate(from + |log|), bodies[c], healthy, a)
    ensures Made(fate, from, bodies, healthy, log + [c], answers + [a],
                 if fate(from + |log|).Arrives? then arrivals + [c] else arrivals)
  {
    assert (log + [c])[..|log|] == log && (answers + [a])[..|log|] == answers;
    assert (arrivals + [c])[..|arrivals|] == arrivals;
  }

  /** No more attempts arrive than are made, and an answer 200 shows an arrival. */
  lemma {:induction false} ArrivedIsMade(fate: nat -> Fate, from: nat, bodies: seq<Body>, healthy: bool,
                                         log: seq<nat>, answers: seq<Attempt<int>>, arrivals: seq<nat>, k: nat)
    requires Made(fate, from, bodies, healthy, log, answers, arrivals)
    ensures AreArrivals(arrivals, |bodies|) && Arrivals(arrivals, k) <= Arrivals(log, k)
    ensures HeardOk(log, answers, k) ==> k in arrivals
    decreases |log|
  {
    if log != [] {
      var n := |log| - 1;
      var arrives := fate(from + n).Arrives?;
      ArrivedIsMade(fate, from, bodies, healthy, log[..n], answers[..n],
                    if arrives then arrivals[..|arrivals| - 1] else arrivals, k);
      LogOneMore(log[..n], answers[..n], log[n], answers[n], k);
      LastOfMultiset<nat>(log);
      assert log == log[..n] + [log[n]] && answers == answers[..n] + [answers[n]];
      if arrives {
        LastOfMultiset<nat>(arrivals);
      }
    }
  }

  /** What the attempt at place j heard fits its fate. */
  lemma {:induction false} AnswerAt(fate: nat -> Fate, from: nat, bodies: seq<Body>, healthy: bool,
                                    log: seq<nat>, answers: seq<Attempt<int>>, arrivals: seq<nat>, j: nat)
    requires Made(fate, from, bodies, healthy, log, answers, arrivals) && j < |log|
    ensures |answers| == |log| && log[j] < |bodies|
    ensures Answers(fate(from + j), bodies[log[j]], healthy, answers[j])
    decreases |log|
  {
    var n := |log| - 1;
    if j < n {
      AnswerAt(fate, from, bodies, healthy, log[..n], answers[..n],
               if fate(from + n).Arrives? then arrivals[..|arrivals| - 1] else arrivals, j);
    }
  }

  /** Where the loop of call k stands. */
  ghost predicate StandsAt(log: seq<nat>, answers: seq<Attempt<int>>, schedule: seq<nat>, k: nat,
                           tries: nat, ok: bool, over: bool)
  {
    && tries == Arrivals(log, k) && UsesItsTurns(log, answers, schedule, k)
    && (over <==> Heard(log, answers, k)) && (ok <==> HeardOk(log, answers, k))
  }

  ghost predicate Stand(log: seq<nat>, answers: seq<Attempt<int>>, schedule: seq<nat>, tries: seq<nat>,
                        oks: seq<bool>, over: seq<bool>)
  {
    && |tries| == |oks| == |over| && |answers| == |log|
    && forall k :: 0 <= k < |tries| ==> StandsAt(log, answers, schedule, k, tries[k], oks[k], over[k])
  }

  lemma TurnOneMore(schedule: seq<nat>, t: nat, k: nat)
    ensures Arrivals(schedule + [t], k) == Arrivals(schedule, k) + if t == k then 1 else 0
  {
    assert multiset(schedule + [t]) == multiset(schedule) + multiset{t};
  }

  lemma SkippedTurn(log: seq<nat>, answers: seq<Attempt<int>>, schedule: seq<nat>, tries: seq<nat>,
                    oks: seq<bool>, over: seq<bool>, t: nat)
    requires Stand(log, answers, schedule, tries, oks, over)
    requires t >= |tries| || over[t] || tries[t] >= MAX_RETRY
    ensures Stand(log, answers, schedule + [t], tries, oks, over)
  {
    forall k | 0 <= k < |tries| ensures StandsAt(log, answers, schedule + [t], k, tries[k], oks[k], over[k]) {
      assert StandsAt(log, answers, schedule, k, tries[k], oks[k], over[k]);
      TurnOneMore(schedule, t, k);
    }
  }

  lemma UsedTurn(log: seq<nat>, answers: seq<Attempt<int>>, schedule: seq<nat>, k: nat, tries: nat, ok: bool,
                 over: bool, t: nat, a: Attempt<int>)
    requires StandsAt(log, answers, schedule, k, tries, ok, over) && |answers| == |log|
    requires t == k ==> !over && tries < MAX_RETRY
    ensures StandsAt(log + [t], answers + [a], schedule + [t], k, if t == k then tries + 1 else tries,
                     if t == k then a == Good(200) else ok, if t == k then a.Good? else over)
  {
    TurnOneMore(schedule, t, k);
    TurnOneMore(log, t, k);
    LogOneMore(log, answers, t, a, k);
  }

  lemma UsedTurns(log: seq<nat>, answers: seq<Attempt<int>>, schedule: seq<nat>, tries: seq<nat>,
                  oks: seq<bool>, over: seq<bool>, t: nat, a: Attempt<int>)
    requires Stand(log, answers, schedule, tries, oks, over) && t < |tries| && !over[t] && tries[t] < MAX_RETRY
    ensures Stand(log + [t], answers + [a], schedule + [t],
                  tries[t := tries[t] + 1], oks[t := a == Good(200)], over[t := a.Good?])
  {
    var tries', oks', over' := tries[t := tries[t] + 1], oks[t := a == Good(200)], over[t := a.Good?];
    forall k | 0 <= k < |tries|
      ensures StandsAt(log + [t], answers + [a], schedule + [t], k, tries'[k], oks'[k], over'[k])
    {
      UsedTurn(log, answers, schedule, k, tries[k], oks[k], over[k], t, a);
    }
  }

  lemma StopsStill(log: seq<nat>, answers: seq<Attempt<int>>, c: nat, a: Attempt<int>)
    requires Stops(log, answers) && !Heard(log, answers, c)
    ensures Stops(log + [c], answers + [a])
  {
  }

  /** One attempt of call k. */
  method AttemptOne(link: Link, bodies: seq<Body>, k: nat, ghost arrivals: seq<nat>)
    returns (a: Attempt<int>)
    requires BothMade(link.handler.ms) && k < |bodies| && AreArrivals(arrivals, |bodies|)
    requires link.handler.ms.Contents() == Arrived(EMPTY, bodies, arrivals)
    modifies link.Footprint()
    ensures BothMade(link.handler.ms) && link.used == old(link.used) + 1
    ensures Answers(link.fate(old(link.used)), bodies[k], link.Healthy(), a)
    ensures AreArrivals(arrivals + [k], |bodies|)
    ensures link.handler.ms.Contents() ==
      Arrived(EMPTY, bodies, if link.fate(old(link.used)).Arrives? then arrivals + [k] else arrivals)
  {
    ArrivedOneMore(EMPTY, bodies, arrivals, k);
    a := link.Post(bodies[k]);
  }

  /** All that is known of the loops after the turns of schedule. */
  ghost predicate Going(link: Link, from: nat, bodies: seq<Body>, schedule: seq<nat>, log: seq<nat>,
                        answers: seq<Attempt<int>>, arrivals: seq<nat>, tries: seq<nat>, oks: seq<bool>,
                        over: seq<bool>)
    reads link, link.handler.ms
  {
    && BothMade(link.handler.ms) && |oks| == |bodies| && link.used == from + |log|
    && Made(link.fate, from, bodies, link.Healthy(), log, answers, arrivals) && Stops(log, answers)
    && Stand(log, answers, schedule, tries, oks, over)
    && AreArrivals(arrivals, |bodies|) && link.handler.ms.Contents() == Arrived(EMPTY, bodies, arrivals)
  }

  /** One turn of call k. */
  method Turn(link: Link, bodies: seq<Body>, k: nat, tries: seq<nat>, oks: seq<bool>, over: seq<bool>,
              ghost from: nat, ghost schedule: seq<nat>, ghost log: seq<nat>, ghost answers: seq<Attempt<int>>,
              ghost arrivals: seq<nat>)
    returns (tries': seq<nat>, oks': seq<bool>, over': seq<bool>,
             ghost log': seq<nat>, ghost answers': seq<Attempt<int>>, ghost arrivals': seq<nat>)
    requires Going(link, from, bodies, schedule, log, answers, arrivals, tries, oks, over)
    modifies link.Footprint()
    ensures Going(link, from, bodies, schedule + [k], log', answers', arrivals', tries', oks', over')
  {
    if k < |bodies| && !over[k] && tries[k] < MAX_RETRY {
      var a := AttemptOne(link, bodies, k, arrivals);
      assert StandsAt(log, answers, schedule, k, tries[k], oks[k], over[k]);
      MadeOneMore(link.fate, from, bodies, link.Healthy(), log, answers, arrivals, k, a);
      UsedTurns(log, answers, schedule, tries, oks, over, k, a);
      StopsStill(log, answers, k, a);
      arrivals' := if link.fate(from + |log|).Arrives? then arrivals + [k] else arrivals;
      log', answers' := log + [k], answers + [a];
      tries', oks', over' := tries[k := tries[k] + 1], oks[k := a == Good(200)], over[k := a.Good?];
    } else {
      SkippedTurn(log, answers, schedule, tries, oks, over, k);
      tries', oks', over', log', answers', arrivals' := tries, oks, over, log, answers, arrivals;
    }
  }

  lemma GoingMeans(link: Link, from: nat, bodies: seq<Body>, schedule: seq<nat>, log: seq<nat>,
                   answers: seq<Attempt<int>>, arrivals: seq<nat>, tries: seq<nat>, oks: seq<bool>, over: seq<bool>)
    requires Going(link, from, bodies, schedule, log, answers, arrivals, tries, oks, over)
    ensures forall k :: 0 <= k < |oks| ==>
      UsesItsTurns(log, answers, schedule, k) && (oks[k] <==> HeardOk(log, answers, k))
  {
    forall k | 0 <= k < |oks|
      ensures UsesItsTurns(log, answers, schedule, k) && (oks[k] <==> HeardOk(log, answers, k))
    {
      assert StandsAt(log, answers, schedule, k, tries[k], oks[k], over[k]);
    }
  }

  /** Each body in a retry loop of its own, all over one link to an empty server:
      schedule says which of them makes the next attempt. A call is over when an
      attempt is answered or its attempts are used up. */
  method AttemptInTurns(link: Link, bodies: seq<Body>, schedule: seq<nat>)
    returns (oks: seq<bool>, ghost log: seq<nat>, ghost answers: seq<Attempt<int>>, ghost arrivals: seq<nat>)
    requires BothMade(link.handler.ms) && link.handler.ms.Contents() == EMPTY
    modifies link.Footprint()
    ensures BothMade(link.handler.ms) && |oks| == |bodies| && link.used == old(link.used) + |log|
    ensures Made(link.fate, old(link.used), bodies, link.Healthy(), log, answers, arrivals) && Stops(log, answers)
    ensures forall k :: 0 <= k < |oks| ==>
      UsesItsTurns(log, answers, schedule, k) && (oks[k] <==> HeardOk(log, answers, k))
    ensures AreArrivals(arrivals, |bodies|) && link.handler.ms.Contents() == Arrived(EMPTY, bodies, arrivals)
  {
    var tries: seq<nat> := seq(|bodies|, _ => 0);
    var over := seq(|bodies|, _ => false);
    oks := seq(|bodies|, _ => false);
    log, answers, arrivals := [], [], [];
    ghost var from := link.used;
    for i := 0 to |schedule|
      invariant Going(link, from, bodies, schedule[..i], log, answers, arrivals, tries, oks, over)
    {
      TakeOneMore(schedule, i);
      tries, oks, over, log, answers, arrivals :=
        Turn(link, bodies, schedule[i], tries, oks, over, from, schedule[..i], log, answers, arrivals);
    }
    assert schedule[..|schedule|] == schedule;
    GoingMeans(link, from, bodies, schedule, log, answers, arrivals, tries, oks, over);
  }

  lemma HasAttempt(log: seq<nat>, answers: seq<Attempt<int>>, schedule: seq<nat>, k: nat)
    requires UsesItsTurns(log, answers, schedule, k) && k in schedule
    ensures k in log
  {
    assert k in multiset(schedule);
    if !Heard(log, answers, k) {
      assert k in multiset(log);
    }
  }

  /** Over a link that answers every attempt each sound call that has a turn
      succeeds, a batch to a healthy server. */
  lemma TurnsSucceed(fate: nat -> Fate, from: nat, bodies: seq<Body>, healthy: bool, log: seq<nat>,
                     answers: seq<Attempt<int>>, arrivals: seq<nat>, schedule: seq<nat>, k: nat)
    requires Made(fate, from, bodies, healthy, log, answers, arrivals)
    requires k < |bodies| && Indifferent(bodies[k], healthy)
    requires forall n: nat :: fate(n).Arrives? && fate(n).answered
    requires UsesItsTurns(log, answers, schedule, k) && k in schedule
    ensures HeardOk(log, answers, k)
  {
    HasAttempt(log, answers, schedule, k);
    var j :| 0 <= j < |log| && log[j] == k;
    AnswerAt(fate, from, bodies, healthy, log, answers, arrivals, j);
    SoundAnswer(fate(from + j), bodies[k], healthy, answers[j]);
  }

  lemma TurnsAreBounded(s: A.State, fate: nat -> Fate, from: nat, healthy: bool, schedule: seq<nat>, log: seq<nat>,
                        answers: seq<Attempt<int>>, arrivals: seq<nat>, oks: seq<bool>)
    requires A.Reachable(s) && |oks| == |s.calls| && AreArrivals(arrivals, |s.calls|)
    requires Made(fate, from, BodiesOf(s), healthy, log, answers, arrivals)
    requires forall k :: 0 <= k < |oks| ==>
      UsesItsTurns(log, answers, schedule, k) && (oks[k] <==> HeardOk(log, answers, k))
    ensures Bounded(s, Arrived(EMPTY, BodiesOf(s), arrivals), ReachedBy(s, arrivals), AllOk(oks))
  {
    forall k | 0 <= k < |oks| ensures Arrivals(arrivals, k) <= MAX_RETRY && (oks[k] ==> k in arrivals) {
      ArrivedIsMade(fate, from, BodiesOf(s), healthy, log, answers, arrivals, k);
      assert UsesItsTurns(log, answers, schedule, k);
    }
    ArrivalsAreBounded(s, arrivals, oks);
  }

  /** The calls of the run with all their attempts in any order, as many senders
      make them. */
  method ReportConcurrently(link: Link, bodies: seq<Body>, schedule: seq<nat>, ghost s: A.State)
    returns (oks: seq<bool>, ghost log: seq<nat>, ghost answers: seq<Attempt<int>>, ghost arrivals: seq<nat>)
    requires BothMade(link.handler.ms) && link.handler.ms.Contents() == EMPTY
    requires A.Reachable(s) && bodies == BodiesOf(s)
    modifies link.Footprint()
    ensures |oks| == |bodies| && link.used == old(link.used) + |log|
    ensures Made(link.fate, old(link.used), bodies, link.Healthy(), log, answers, arrivals)
    ensures forall k :: 0 <= k < |oks| ==>
      UsesItsTurns(log, answers, schedule, k) && (oks[k] <==> HeardOk(log, answers, k))
    ensures AreArrivals(arrivals, |s.calls|)
    ensures Bounded(s, link.handler.ms.Contents(), ReachedBy(s, arrivals), AllOk(oks))
  {
    ghost var from := link.used;
    oks, log, answers, arrivals := AttemptInTurns(link, bodies, schedule);
    TurnsAreBounded(s, link.fate, from, link.Healthy(), schedule, log, answers, arrivals, oks);
  }
}
