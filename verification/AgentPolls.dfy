/** What the PollCount messages say. Each carries the address of the one
    counter, so it says how many polls there had been when it was serialised,
    not when it was sent. */
module AgentPolls {
  import opened Numbers
  import opened Lists
  import opened Updates
  import opened Agent
  import opened AgentConservation
  import opened AgentShutdown
  import opened AgentTicks
  import opened AgentDrains

  /** How many PollCount messages ms has. */
  function Polls(ms: seq<Message>): nat {
    if ms == [] then 0 else Polls(ms[..|ms| - 1]) + if ms[|ms| - 1].PollCount? then 1 else 0
  }

  /** The message at pos is the first PollCount message, the second, and so on. */
  function Ordinal(ms: seq<Message>, pos: nat): nat
    requires pos < |ms|
  {
    Polls(ms[..pos + 1])
  }

  lemma {:induction false} PollsOfPrefix(ms: seq<Message>, k: nat)
    requires k <= |ms|
    ensures Polls(ms[..k]) <= Polls(ms)
  {
    if k < |ms| {
      assert ms[..|ms| - 1][..k] == ms[..k];
      PollsOfPrefix(ms[..|ms| - 1], k);
    } else {
      assert ms[..k] == ms;
    }
  }

  lemma PollsOneMore(ms: seq<Message>, m: Message)
    ensures Polls(ms + [m]) == Polls(ms) + if m.PollCount? then 1 else 0
  {
    assert (ms + [m])[..|ms|] == ms;
  }

  /** Later PollCount messages have larger ordinals. */
  lemma OrdinalsGrow(ms: seq<Message>, p: nat, q: nat)
    requires p < q < |ms| && ms[q].PollCount?
    ensures Ordinal(ms, p) < Ordinal(ms, q)
  {
    var upTo := ms[..q];
    assert ms[..q + 1] == upTo + [ms[q]];
    PollsOneMore(upTo, ms[q]);
    assert upTo[..p + 1] == ms[..p + 1];
    PollsOfPrefix(upTo, p + 1);
  }

  lemma OrdinalIsPositive(ms: seq<Message>, p: nat)
    requires p < |ms| && ms[p].PollCount?
    ensures Ordinal(ms, p) >= 1
  {
    assert ms[..p + 1] == ms[..p] + [ms[p]];
    PollsOneMore(ms[..p], ms[p]);
  }

  lemma OrdinalAtMost(ms: seq<Message>, p: nat)
    requires p < |ms|
    ensures Ordinal(ms, p) <= Polls(ms)
  {
    PollsOfPrefix(ms, p + 1);
  }

  // ---------------------------------------------------------------- invariant

  /** What a client call read is the wrapped number of polls at that time, and
      that is at least the ordinal of the message. */
  predicate HandedOk(h: Handed, sent: seq<Message>, polls: nat) {
    && h.item.pos < |sent| && h.item.msg == sent[h.item.pos]
    && h.polls <= polls && h.delta == Wrap64(h.polls)
    && Ordinal(sent, h.item.pos) <= h.polls
  }

  ghost predicate AllHandedOk(hs: seq<Handed>, sent: seq<Message>, polls: nat) {
    forall j :: 0 <= j < |hs| ==> HandedOk(hs[j], sent, polls)
  }

  predicate GaugesOnly(c: Collector) {
    c.Gauges? ==> OnlyGauges(c.todo)
  }

  /** A poll that was counted is sent before the next one is counted. */
  predicate CountOk(s: State) {
    && s.pollCounter == Wrap64(s.polls)
    && s.polls == Polls(s.sent) + (if s.runtime == Counted then 1 else 0)
    && GaugesOnly(s.runtime) && GaugesOnly(s.gopsutil)
  }

  ghost predicate PollInv(s: State) {
    CountOk(s) && AllHandedOk(s.handed, s.sent, s.polls)
  }

  lemma CountStep(s: State, a: Step)
    requires Enabled(s, a) && SafeInv(s) && CountOk(s)
    ensures CountOk(Next(s, a)) && Next(s, a).polls >= s.polls
  {
    if a.SendRuntimeGauge? {
      PollsOneMore(s.sent, s.runtime.todo[0]);
    } else if a.SendGopsutilGauge? {
      PollsOneMore(s.sent, s.gopsutil.todo[0]);
    } else if a.SendPollCount? {
      PollsOneMore(s.sent, PollCount);
    } else if a.CountPoll? {
      WrapAbsorbs(s.polls, 1);
    }
  }

  /** Sending and counting do not spoil what was read before. */
  lemma HandedStay(hs: seq<Handed>, sent: seq<Message>, sent': seq<Message>, polls: nat, polls': nat)
    requires AllHandedOk(hs, sent, polls) && sent <= sent' && polls <= polls'
    ensures AllHandedOk(hs, sent', polls')
  {
    forall j | 0 <= j < |hs| ensures HandedOk(hs[j], sent', polls') {
      var p := hs[j].item.pos;
      assert HandedOk(hs[j], sent, polls);
      assert sent[..p + 1] == sent'[..p + 1];
    }
  }

  lemma ReadingIsOk(s: State, i: nat)
    requires Enabled(s, Serialise(i)) && Inv(s) && CountOk(s)
    ensures HandedOk(Handed(i, s.senders[i].todo[0], s.polls, s.pollCounter), s.sent, s.polls)
  {
    var l := LedgerOf(s);
    assert SenderOk(l, i);
    var before := ItemsFrom(s.handed, i);
    assert s.received[i] == before + HeldBy(s.senders[i]);
    assert s.received[i][|before|] == s.senders[i].todo[0];
    OrdinalAtMost(s.sent, s.senders[i].todo[0].pos);
  }

  lemma SentGrows(s: State, a: Step)
    requires Enabled(s, a)
    ensures s.sent <= Next(s, a).sent
    ensures !a.Serialise? ==> Next(s, a).handed == s.handed
  {
  }

  lemma StepKeepsPolls(s: State, a: Step)
    requires Enabled(s, a) && SafeInv(s) && Inv(s) && PollInv(s)
    ensures PollInv(Next(s, a))
  {
    CountStep(s, a);
    SentGrows(s, a);
    HandedStay(s.handed, s.sent, Next(s, a).sent, s.polls, Next(s, a).polls);
    if a.Serialise? {
      ReadingIsOk(s, a.i);
    }
  }

  lemma {:induction false} RunKeepsPolls(s: State, run: seq<Step>)
    requires CanRun(s, run) && SafeInv(s) && Inv(s) && PollInv(s)
    ensures PollInv(After(s, run))
    decreases |run|
  {
    if run != [] {
      StepKeepsPolls(s, run[0]);
      StepKeepsSafe(s, run[0]);
      StepKeepsInv(s, run[0]);
      RunKeepsPolls(Next(s, run[0]), run[1..]);
    }
  }

  lemma ReachablePolls(s: State)
    requires Reachable(s)
    ensures PollInv(s)
  {
    var n: nat, b, run :| CanRun(Start(n, b), run) && After(Start(n, b), run) == s;
    StartInv(n, b);
    RunKeepsPolls(Start(n, b), run);
  }

  // ---------------------------------------------------------------- one message

  /** The k-th PollCount message ever sent says a number between k and the
      number of polls, as an int64. */
  lemma PollCountReading(s: State, j: nat)
    requires Reachable(s) && j < |s.handed|
    ensures var h := s.handed[j];
      && h.item.pos < |s.sent| && h.item.msg == s.sent[h.item.pos]
      && h.delta == Wrap64(h.polls) && h.polls <= s.polls
      && Ordinal(s.sent, h.item.pos) <= h.polls
      && (h.item.msg.PollCount? ==> 1 <= Ordinal(s.sent, h.item.pos))
  {
    ReachablePolls(s);
    assert HandedOk(s.handed[j], s.sent, s.polls);
    if s.handed[j].item.msg.PollCount? {
      OrdinalIsPositive(s.sent, s.handed[j].item.pos);
    }
  }

  lemma {:induction false} TaggedOnce(ms: seq<Message>, x: Item)
    ensures multiset(Tagged(ms))[x] <= 1
  {
    if ms != [] {
      var front := ms[..|ms| - 1];
      TaggedOnce(front, x);
      TaggedAt(front);
    }
  }

  lemma {:induction false} ItemsAt(hs: seq<Handed>)
    ensures |ItemsOf(hs)| == |hs|
    ensures forall j :: 0 <= j < |hs| ==> ItemsOf(hs)[j] == hs[j].item
  {
    if hs != [] {
      ItemsAt(hs[..|hs| - 1]);
    }
  }

  /** No message is serialised by two client calls. */
  lemma HandedOnce(s: State, i: nat, j: nat)
    requires Reachable(s) && i < j < |s.handed|
    ensures s.handed[i].item.pos != s.handed[j].item.pos
  {
    PollCountReading(s, i);
    PollCountReading(s, j);
    Conservation(s);
    ItemsAt(s.handed);
    TaggedOnce(s.sent, s.handed[i].item);
    assert multiset(ItemsOf(s.handed)) <= multiset(Tagged(s.sent));
    if s.handed[i].item.pos == s.handed[j].item.pos {
      TwiceIsTwo(ItemsOf(s.handed), i, j);
    }
  }

  // ---------------------------------------------------------------- sums

  /** 1 + 2 + ... + n */
  function Triangle(n: nat): nat {
    n * (n + 1) / 2
  }

  lemma TriangleStep(n: nat)
    ensures Triangle(n + 1) == Triangle(n) + n + 1
  {
    assert (n + 1) * (n + 2) == n * (n + 1) + 2 * (n + 1);
  }

  ghost predicate AllDifferent(xs: seq<nat>) {
    forall i, j :: 0 <= i < j < |xs| ==> xs[i] != xs[j]
  }

  lemma {:induction false} SumConcat(xs: seq<nat>, ys: seq<nat>)
    ensures Sum(xs + ys) == Sum(xs) + Sum(ys)
  {
    if ys == [] {
      assert xs + ys == xs;
    } else {
      assert (xs + ys)[..|xs + ys| - 1] == xs + ys[..|ys| - 1];
      SumConcat(xs, ys[..|ys| - 1]);
    }
  }

  lemma SumOfOne(x: nat)
    ensures Sum([x]) == x
  {
    assert [x][..0] == [];
  }

  lemma SumMiddle(front: seq<nat>, x: nat, back: seq<nat>)
    ensures Sum(front + [x] + back) == Sum(front + back) + x
  {
    SumConcat(front + [x], back);
    SumConcat(front, [x]);
    SumConcat(front, back);
    SumOfOne(x);
  }

  /** Different positive numbers up to m: there are at most m, and their sum is
      at least that of the first ones. */
  lemma {:induction false} DifferentSum(xs: seq<nat>, m: nat)
    requires AllDifferent(xs) && forall i :: 0 <= i < |xs| ==> 1 <= xs[i] <= m
    ensures |xs| <= m && Sum(xs) >= Triangle(|xs|)
    decreases m
  {
    if xs == [] {
    } else if i :| 0 <= i < |xs| && xs[i] == m {
      var front, back := xs[..i], xs[i + 1..];
      assert xs == front + [m] + back;
      DifferentSum(front + back, m - 1);
      SumMiddle(front, m, back);
      TriangleStep(|front + back|);
    } else {
      assert 1 <= xs[0] <= m;
      DifferentSum(xs, m - 1);
    }
  }

  function Most(xs: seq<nat>): (m: nat)
    ensures forall i :: 0 <= i < |xs| ==> xs[i] <= m
  {
    if xs == [] then 0
    else
      var front := Most(xs[..|xs| - 1]);
      if front < xs[|xs| - 1] then xs[|xs| - 1] else front
  }

  lemma {:induction false} SumGrows(xs: seq<nat>, ys: seq<nat>)
    requires |xs| == |ys| && forall i :: 0 <= i < |xs| ==> xs[i] <= ys[i]
    ensures Sum(xs) <= Sum(ys)
  {
    if xs != [] {
      SumGrows(xs[..|xs| - 1], ys[..|ys| - 1]);
    }
  }

  // ---------------------------------------------------------------- the server's counter

  const POLL_COUNT := "PollCount"

  /** What a server does with a message that a client call serialised. */
  function UpdateOf(h: Handed): Update {
    match h.item.msg
    case GaugeMessage(id, value) => SetGauge(id, value)
    case PollCount => AddCounter(POLL_COUNT, h.delta)
  }

  ghost predicate LogOf(log: seq<nat>, hs: seq<Handed>) {
    forall i :: 0 <= i < |log| ==> log[i] < |hs|
  }

  /** The updates of a log: in what order, in what batches and how often the
      serialised messages reached the server. */
  function Applied(hs: seq<Handed>, log: seq<nat>): seq<Update>
    requires LogOf(log, hs)
  {
    if log == [] then [] else Applied(hs, log[..|log| - 1]) + [UpdateOf(hs[log[|log| - 1]])]
  }

  /** The entries of the log that are PollCount messages. */
  function PollsIn(hs: seq<Handed>, log: seq<nat>): (r: seq<nat>)
    requires LogOf(log, hs)
    ensures forall i :: 0 <= i < |r| ==> r[i] < |hs| && hs[r[i]].item.msg.PollCount?
  {
    if log == [] then []
    else PollsIn(hs, log[..|log| - 1]) + if hs[log[|log| - 1]].item.msg.PollCount? then [log[|log| - 1]] else []
  }

  function Distinct(xs: seq<nat>): (r: seq<nat>)
    ensures AllDifferent(r) && |r| <= |xs|
    ensures forall x :: x in r <==> x in xs
  {
    if xs == [] then []
    else
      var front, x := xs[..|xs| - 1], xs[|xs| - 1];
      assert xs == front + [x];
      if x in front then Distinct(front) else Distinct(front) + [x]
  }

  /** The numbers that the messages said. */
  function Readings(hs: seq<Handed>, ixs: seq<nat>): (r: seq<nat>)
    requires LogOf(ixs, hs)
    ensures |r| == |ixs| && forall i :: 0 <= i < |ixs| ==> r[i] == hs[ixs[i]].polls
  {
    seq(|ixs|, i requires 0 <= i < |ixs| => hs[ixs[i]].polls)
  }

  lemma OneMoreReading(hs: seq<Handed>, ixs: seq<nat>, x: nat)
    requires LogOf(ixs, hs) && x < |hs|
    ensures LogOf(ixs + [x], hs)
    ensures Sum(Readings(hs, ixs + [x])) == Sum(Readings(hs, ixs)) + hs[x].polls
  {
    assert Readings(hs, ixs + [x])[..|ixs|] == Readings(hs, ixs);
  }

  lemma {:induction false} DistinctSumsLess(hs: seq<Handed>, xs: seq<nat>)
    requires LogOf(xs, hs)
    ensures LogOf(Distinct(xs), hs)
    ensures Sum(Readings(hs, Distinct(xs))) <= Sum(Readings(hs, xs))
  {
    if xs != [] {
      var front, x := xs[..|xs| - 1], xs[|xs| - 1];
      DistinctSumsLess(hs, front);
      OneMoreReading(hs, front, x);
      OneMoreReading(hs, Distinct(front), x);
      assert xs == front + [x];
    }
  }

  lemma OneMoreDelta(us: seq<Update>, u: Update, n: string)
    ensures DeltaSum(us + [u], n) == DeltaSum(us, n) + DeltaOf(u, n)
  {
    assert (us + [u])[..|us|] == us;
  }

  lemma {:induction false} DeltasAreReadings(hs: seq<Handed>, log: seq<nat>)
    requires LogOf(log, hs)
    requires forall j :: 0 <= j < |hs| ==> hs[j].delta == hs[j].polls
    ensures DeltaSum(Applied(hs, log), POLL_COUNT) == Sum(Readings(hs, PollsIn(hs, log)))
  {
    if log != [] {
      var front, x := log[..|log| - 1], log[|log| - 1];
      DeltasAreReadings(hs, front);
      OneMoreDelta(Applied(hs, front), UpdateOf(hs[x]), POLL_COUNT);
      OneMoreReading(hs, PollsIn(hs, front), x);
      if !hs[x].item.msg.PollCount? {
        assert PollsIn(hs, log) == PollsIn(hs, front);
      }
    }
  }

  lemma {:induction false} SumAtMost(xs: seq<nat>, p: nat)
    requires forall i :: 0 <= i < |xs| ==> xs[i] <= p
    ensures Sum(xs) <= |xs| * p
  {
    if xs != [] {
      SumAtMost(xs[..|xs| - 1], p);
      assert |xs| * p == (|xs| - 1) * p + p;
    }
  }

  /** Different PollCount messages said at least 1, 2, 3 and so on. */
  lemma DifferentMessagesSum(s: State, ixs: seq<nat>)
    requires Reachable(s) && LogOf(ixs, s.handed) && AllDifferent(ixs)
    requires forall i :: 0 <= i < |ixs| ==> s.handed[ixs[i]].item.msg.PollCount?
    ensures Sum(Readings(s.handed, ixs)) >= Triangle(|ixs|)
  {
    ReachablePolls(s);
    assert forall j :: 0 <= j < |s.handed| ==> HandedOk(s.handed[j], s.sent, s.polls);
    var ords := seq(|ixs|, i requires 0 <= i < |ixs| => Ordinal(s.sent, s.handed[ixs[i]].item.pos));
    forall i | 0 <= i < |ixs| ensures 1 <= ords[i] <= Readings(s.handed, ixs)[i] {
      PollCountReading(s, ixs[i]);
    }
    forall i, j | 0 <= i < j < |ixs| ensures ords[i] != ords[j] {
      OrdinalsDiffer(s, ixs[i], ixs[j]);
    }
    DifferentSum(ords, Most(ords));
    SumGrows(ords, Readings(s.handed, ixs));
  }

  lemma OrdinalsDiffer(s: State, i: nat, j: nat)
    requires Reachable(s) && i < |s.handed| && j < |s.handed| && i != j
    requires s.handed[i].item.msg.PollCount? && s.handed[j].item.msg.PollCount?
    ensures s.handed[i].item.pos < |s.sent| && s.handed[j].item.pos < |s.sent|
    ensures Ordinal(s.sent, s.handed[i].item.pos) != Ordinal(s.sent, s.handed[j].item.pos)
  {
    PollCountReading(s, i);
    PollCountReading(s, j);
    HandedOnce(s, if i < j then i else j, if i < j then j else i);
    var p, q := s.handed[i].item.pos, s.handed[j].item.pos;
    if p < q {
      OrdinalsGrow(s.sent, p, q);
    } else {
      OrdinalsGrow(s.sent, q, p);
    }
  }

  /** Whatever reached the server, in any order, any batches and however often:
      n different PollCount messages, applied k times in all after p polls, make
      its counter at least 1 + ... + n and at most k * p. */
  lemma PollCountBounds(s: State, log: seq<nat>)
    requires Reachable(s) && LogOf(log, s.handed)
    requires s.polls < TWO_63 && |PollsIn(s.handed, log)| * s.polls < TWO_63
    ensures var polls := PollsIn(s.handed, log);
      Triangle(|Distinct(polls)|) <= CounterOf(Replay(EMPTY, Applied(s.handed, log)), POLL_COUNT) <= |polls| * s.polls
  {
    var polls := PollsIn(s.handed, log);
    forall j | 0 <= j < |s.handed| ensures s.handed[j].delta == s.handed[j].polls <= s.polls {
      PollCountReading(s, j);
      WrapInRange(s.handed[j].polls);
    }
    DeltasAreReadings(s.handed, log);
    SumAtMost(Readings(s.handed, polls), s.polls);
    DistinctSumsLess(s.handed, polls);
    forall i | 0 <= i < |Distinct(polls)| ensures s.handed[Distinct(polls)[i]].item.msg.PollCount? {
      assert Distinct(polls)[i] in polls;
    }
    DifferentMessagesSum(s, Distinct(polls));
    CounterExact(EMPTY, Applied(s.handed, log), POLL_COUNT);
  }

  lemma TriangleExceeds(n: nat)
    requires n >= 2
    ensures Triangle(n) > n
  {
    assert n * (n + 1) == n * (n - 2) + 3 * n;
  }

  /** Even if every poll's message is applied exactly once, the server's counter
      is the number of polls only as long as there was at most one. */
  lemma PollCountIsRightOnlyOnce(s: State, log: seq<nat>)
    requires Reachable(s) && LogOf(log, s.handed)
    requires AllDifferent(PollsIn(s.handed, log)) && |PollsIn(s.handed, log)| == s.polls
    requires s.polls * s.polls < TWO_63 && s.polls < TWO_63
    ensures CounterOf(Replay(EMPTY, Applied(s.handed, log)), POLL_COUNT) == s.polls <==> s.polls <= 1
  {
    var polls := PollsIn(s.handed, log);
    PollCountBounds(s, log);
    DifferentIsDistinct(polls);
    if s.polls >= 2 {
      TriangleExceeds(s.polls);
    }
  }

  lemma {:induction false} DifferentIsDistinct(xs: seq<nat>)
    requires AllDifferent(xs)
    ensures Distinct(xs) == xs
  {
    if xs != [] {
      var front := xs[..|xs| - 1];
      DifferentIsDistinct(front);
      assert xs == front + [xs[|xs| - 1]];
    }
  }

  // ---------------------------------------------------------------- late reports

  lemma {:induction false} PollCounts(hs: seq<Handed>, log: seq<nat>, x: nat)
    requires LogOf(log, hs)
    ensures multiset(PollsIn(hs, log))[x] <= multiset(log)[x]
    ensures x in PollsIn(hs, log) <==> x in log && x < |hs| && hs[x].item.msg.PollCount?
  {
    if log != [] {
      var front, last := log[..|log| - 1], log[|log| - 1];
      PollCounts(hs, front, x);
      assert log == front + [last];
    }
  }

  lemma {:induction false} PollsStayDifferent(hs: seq<Handed>, log: seq<nat>)
    requires LogOf(log, hs) && AllDifferent(log)
    ensures AllDifferent(PollsIn(hs, log))
  {
    if log != [] {
      var front, last := log[..|log| - 1], log[|log| - 1];
      PollsStayDifferent(hs, front);
      PollCounts(hs, front, last);
    }
  }

  /** p whole ticks, all before the first report. */
  lemma {:induction false} Ticks(s: State, gauges: seq<Message>, p: nat) returns (s': State)
    requires Reachable(s) && !s.panicked && !s.closed && s.runtime == Polling && IsTick(gauges)
    requires |s.queue| + p * (|gauges| + 1) <= CAPACITY
    ensures Reachable(s')
    ensures s' == s.(queue := s'.queue, sent := s'.sent, polls := s.polls + p, pollCounter := s'.pollCounter)
    decreases p
  {
    if p == 0 {
      s' := s;
    } else {
      OneTimeMore(p, |gauges| + 1);
      OneTimeFits(p, |gauges| + 1);
      var s1 := WholeTick(s, gauges);
      s' := Ticks(s1, gauges, p - 1);
    }
  }

  lemma OneTimeFits(n: nat, c: nat)
    requires n > 0
    ensures c <= n * c
  {
    OneTimeMore(n, c);
  }

  predicate AllRead(hs: seq<Handed>, polls: nat) {
    forall j :: 0 <= j < |hs| ==> hs[j].polls == polls
  }

  /** The first k messages handed over have as many PollCount messages as the
      first k sent. */
  lemma {:induction false} PollsHandedInOrder(hs: seq<Handed>, sent: seq<Message>, k: nat)
    requires ItemsOf(hs) == Tagged(sent) && k <= |hs|
    ensures k <= |sent| && |PollsIn(hs, Iota(k))| == Polls(sent[..k])
  {
    ItemsAt(hs);
    TaggedAt(sent);
    if k > 0 {
      PollsHandedInOrder(hs, sent, k - 1);
      assert Iota(k)[..k - 1] == Iota(k - 1);
      assert sent[..k][..k - 1] == sent[..k - 1];
      assert ItemsOf(hs)[k - 1] == Tagged(sent)[k - 1];
    }
  }

  lemma {:induction false} SumOfSame(xs: seq<nat>, p: nat)
    requires forall i :: 0 <= i < |xs| ==> xs[i] == p
    ensures Sum(xs) == |xs| * p
  {
    if xs != [] {
      SumOfSame(xs[..|xs| - 1], p);
      OneTimeMore(|xs|, p);
    }
  }

  /** PollCount messages that were all read after p polls add up to p each. */
  lemma AllReadCounts(hs: seq<Handed>, log: seq<nat>, p: nat, total: nat)
    requires LogOf(log, hs) && AllRead(hs, p) && p < TWO_63
    requires forall j :: 0 <= j < |hs| ==> hs[j].delta == Wrap64(hs[j].polls)
    requires total == |PollsIn(hs, log)| * p && total < TWO_63
    ensures CounterOf(Replay(EMPTY, Applied(hs, log)), POLL_COUNT) == total
  {
    WrapInRange(p);
    assert forall j :: 0 <= j < |hs| ==> hs[j].polls == p;
    DeltasAreReadings(hs, log);
    SumOfSame(Readings(hs, PollsIn(hs, log)), p);
    CounterExact(EMPTY, Applied(hs, log), POLL_COUNT);
  }

  /** The only sender reports everything at once: all of it is read then. */
  lemma OneReportReadsAll(s: State) returns (s': State)
    requires Reachable(s) && s.handed == [] && s.senders == [Waiting] && !s.closed
    ensures Reachable(s') && s'.polls == s.polls && s'.sent == s.sent && s'.runtime == s.runtime
    ensures AllRead(s'.handed, s.polls) && ItemsOf(s'.handed) == Tagged(s.sent)
  {
    AllWaits(s);
    var run := WholeReport(s, 0);
    s' := After(s, run);
    ReachableRun(s, run);
    ReadingIsAll(s, s'.handed);
  }

  lemma ReadingIsAll(s: State, hs: seq<Handed>)
    requires hs == [] + Reading(s, 0, s.queue)
    ensures AllRead(hs, s.polls) && ItemsOf(hs) == s.queue
  {
    ItemsAt(hs);
  }

  /** Nothing has been handed over and nobody holds anything. */
  lemma AllWaits(s: State)
    requires Reachable(s) && s.handed == [] && s.senders == [Waiting]
    ensures s.queue == Tagged(s.sent)
  {
    Conservation(s);
    TotalOfNothing(HeldParts(s.senders));
    assert multiset(s.queue) == multiset(Tagged(s.sent));
    assert |s.queue| == |multiset(s.queue)| == |multiset(Tagged(s.sent))| == |s.sent|;
  }

  lemma SmallSquare(p: nat, k: nat)
    requires p * (k + 1) <= CAPACITY
    ensures p <= CAPACITY && p * p < TWO_63
  {
    assert p * (k + 1) == p * k + p;
    assert p * p <= CAPACITY * CAPACITY by {
      assert CAPACITY * CAPACITY - p * p == (CAPACITY - p) * (CAPACITY + p);
    }
  }

  lemma PollsOfAll(s: State, log: seq<nat>)
    requires Reachable(s) && ItemsOf(s.handed) == Tagged(s.sent) && log == Iota(|s.handed|) && s.runtime != Counted
    ensures LogOf(log, s.handed) && |PollsIn(s.handed, log)| == s.polls
    ensures forall j :: 0 <= j < |s.handed| ==> s.handed[j].delta == Wrap64(s.handed[j].polls)
  {
    ReachablePolls(s);
    assert forall j :: 0 <= j < |s.handed| ==> HandedOk(s.handed[j], s.sent, s.polls);
    PollsHandedInOrder(s.handed, s.sent, |s.handed|);
    ItemsAt(s.handed);
    TaggedAt(s.sent);
    assert s.sent[..|s.handed|] == s.sent;
  }

  lemma LateReports(batchMode: bool, gauges: seq<Message>, p: nat) returns (s: State)
    requires IsTick(gauges) && p * (|gauges| + 1) <= CAPACITY
    ensures Reachable(s) && s.polls == p && s.runtime == Polling
    ensures AllRead(s.handed, p) && ItemsOf(s.handed) == Tagged(s.sent)
  {
    StartIsReachable(1, batchMode);
    var s1 := Ticks(Start(1, batchMode), gauges, p);
    assert s1.senders == [Waiting];
    s := OneReportReadsAll(s1);
  }

  /** In either mode and whatever the gauges: p polls before the first report, and
      the messages of all polls, each applied exactly once, make the server's counter
      p * p. So the upper bound is attained. */
  lemma LatePollsCountSquares(batchMode: bool, gauges: seq<Message>, p: nat) returns (s: State, log: seq<nat>)
    requires IsTick(gauges) && p * (|gauges| + 1) <= CAPACITY
    ensures Reachable(s) && s.polls == p && LogOf(log, s.handed)
    ensures AllDifferent(PollsIn(s.handed, log)) && |PollsIn(s.handed, log)| == p
    ensures CounterOf(Replay(EMPTY, Applied(s.handed, log)), "PollCount") == p * p
  {
    s := LateReports(batchMode, gauges, p);
    log := Iota(|s.handed|);
    PollsOfAll(s, log);
    PollsStayDifferent(s.handed, log);
    SmallSquare(p, |gauges|);
    AllReadCounts(s.handed, log, p, p * p);
  }
}
