/** No message is lost, duplicated or reordered on its way from the collectors
    to the client calls, whatever the interleaving. */
module AgentConservation {
  import opened Lists
  import opened Agent

  // ---------------------------------------------------------------- the ledger

  /** The part of the state that says where messages are. */
  datatype Ledger = Ledger(queue: seq<Item>, sent: seq<Message>, senders: seq<Sender>, received: seq<seq<Item>>,
                           handed: seq<Handed>)

  function LedgerOf(s: State): Ledger {
    Ledger(s.queue, s.sent, s.senders, s.received, s.handed)
  }

  /** All that a step of the agent can do to it. */
  datatype Change =
    | Nothing
    | Sending(m: Message)
    | Taking(i: nat, p: Sender)
    | Giving(i: nat, p: Sender, h: Handed)
    | Switching(i: nat, p: Sender)

  ghost predicate Allowed(l: Ledger, c: Change) {
    match c
    case Nothing => true
    case Sending(m) => |l.queue| < CAPACITY
    case Taking(i, p) =>
      && i < |l.senders| && i < |l.received| && l.queue != []
      && HeldBy(p) == HeldBy(l.senders[i]) + [l.queue[0]]
    case Giving(i, p, h) =>
      i < |l.senders| && h.sender == i && HeldBy(l.senders[i]) == [h.item] + HeldBy(p)
    case Switching(i, p) =>
      i < |l.senders| && HeldBy(p) == HeldBy(l.senders[i])
  }

  function Make(l: Ledger, c: Change): Ledger
    requires Allowed(l, c)
  {
    match c
    case Nothing => l
    case Sending(m) => l.(queue := l.queue + [Item(|l.sent|, m)], sent := l.sent + [m])
    case Taking(i, p) =>
      l.(queue := l.queue[1..], senders := l.senders[i := p], received := l.received[i := l.received[i] + [l.queue[0]]])
    case Giving(i, p, h) => l.(senders := l.senders[i := p], handed := l.handed + [h])
    case Switching(i, p) => l.(senders := l.senders[i := p])
  }

  function ChangeOf(s: State, a: Step): Change
    requires Enabled(s, a)
  {
    match a
    case SendRuntimeGauge => if s.closed then Nothing else Sending(s.runtime.todo[0])
    case SendPollCount => if s.closed then Nothing else Sending(PollCount)
    case SendGopsutilGauge => if s.closed then Nothing else Sending(s.gopsutil.todo[0])
    case Receive(i) => Taking(i, Taken(s, i, s.queue[0]))
    case Serialise(i) =>
      Giving(i, Serialised(s.senders[i], |s.handed|), Handed(i, s.senders[i].todo[0], s.polls, s.pollCounter))
    case TickSender(i) => Switching(i, Draining([]))
    case DrainDone(i) => Switching(i, FlushBatch(s.senders[i].batch, ToSelect))
    case DrainClosed(i) => Switching(i, FlushBatch(s.senders[i].batch, ToExit))
    case CallReturns(i) => Switching(i, Next(s, a).senders[i])
    case StopSender(i) => Switching(i, Exited)
    case _ => Nothing
  }

  /** Outside batch mode a draining sender has an empty batch. */
  ghost predicate BatchesOk(s: State) {
    && |s.received| == |s.senders|
    && (!s.batchMode ==> forall i :: 0 <= i < |s.senders| && s.senders[i].Draining? ==> s.senders[i].batch == [])
  }

  lemma BatchesStep(s: State, a: Step)
    requires Enabled(s, a) && BatchesOk(s)
    ensures BatchesOk(Next(s, a)) && |Next(s, a).senders| == |s.senders|
  {
  }

  /** Every step of the agent is such a change. */
  lemma StepIsAChange(s: State, a: Step)
    requires Enabled(s, a) && BatchesOk(s)
    ensures Allowed(LedgerOf(s), ChangeOf(s, a))
    ensures LedgerOf(Next(s, a)) == Make(LedgerOf(s), ChangeOf(s, a))
  {
  }

  // ---------------------------------------------------------------- lists

  lemma {:induction false} TaggedAt(ms: seq<Message>)
    ensures |Tagged(ms)| == |ms|
    ensures forall k :: 0 <= k < |ms| ==> Tagged(ms)[k] == Item(k, ms[k])
  {
    if ms != [] {
      TaggedAt(ms[..|ms| - 1]);
    }
  }

  lemma TaggedOneMore(ms: seq<Message>, m: Message)
    ensures Tagged(ms + [m]) == Tagged(ms) + [Item(|ms|, m)]
  {
    assert (ms + [m])[..|ms|] == ms;
  }

  lemma ItemsOneMore(hs: seq<Handed>, h: Handed, i: nat)
    ensures ItemsOf(hs + [h]) == ItemsOf(hs) + [h.item]
    ensures ItemsFrom(hs + [h], i) == ItemsFrom(hs, i) + if h.sender == i then [h.item] else []
  {
    assert (hs + [h])[..|hs|] == hs;
  }

  /** Moving x from the channel q to the held h keeps the total. */
  lemma MoveToHeld<T>(a: multiset<T>, h: multiset<T>, h': multiset<T>, q: multiset<T>, was: multiset<T>,
                      now: multiset<T>, x: T, t: multiset<T>)
    requires a + h + (multiset{x} + q) == t
    requires h' + was == h + now && now == was + multiset{x}
    ensures a + h' + q == t
  {
    assert h' + was == h + multiset{x} + was;
    Unchanged(h + multiset{x}, h', was);
  }

  /** Moving x from the held h to the handed a keeps the total. */
  lemma MoveToHanded<T>(a: multiset<T>, h: multiset<T>, h': multiset<T>, q: multiset<T>, was: multiset<T>,
                        now: multiset<T>, x: T, t: multiset<T>)
    requires a + h + q == t
    requires h' + was == h + now && was == multiset{x} + now
    ensures a + multiset{x} + h' + q == t
  {
    assert h' + multiset{x} + now == h + now;
    Unchanged(h, h' + multiset{x}, now);
  }

  lemma HeldPut(ps: seq<Sender>, i: nat, p: Sender)
    requires i < |ps|
    ensures Held(ps[i := p]) + multiset(HeldBy(ps[i])) == Held(ps) + multiset(HeldBy(p))
  {
    assert HeldParts(ps[i := p]) == HeldParts(ps)[i := HeldBy(p)];
    TotalPut(HeldParts(ps), i, HeldBy(p));
  }

  // ---------------------------------------------------------------- the total

  /** How many messages have left the channel. */
  function Gone(l: Ledger): int {
    |l.sent| - |l.queue|
  }

  /** The channel is the newest part of what was sent. */
  ghost predicate QueueOk(l: Ledger) {
    && |l.queue| <= CAPACITY && 0 <= Gone(l) <= |Tagged(l.sent)|
    && l.queue == Tagged(l.sent)[Gone(l)..]
  }

  lemma NewestPart<T>(q: seq<T>, t: seq<T>, k: nat, x: T)
    requires k <= |t| && q == t[k..]
    ensures q + [x] == (t + [x])[k..]
    ensures q != [] ==> k < |t| && q[1..] == t[k + 1..]
  {
  }

  lemma SendKeepsQueue(l: Ledger, m: Message)
    requires Allowed(l, Sending(m)) && QueueOk(l)
    ensures QueueOk(Make(l, Sending(m)))
  {
    TaggedOneMore(l.sent, m);
    NewestPart(l.queue, Tagged(l.sent), Gone(l), Item(|l.sent|, m));
  }

  lemma TakeKeepsQueue(l: Ledger, i: nat, p: Sender)
    requires Allowed(l, Taking(i, p)) && QueueOk(l)
    ensures QueueOk(Make(l, Taking(i, p)))
  {
    NewestPart(l.queue, Tagged(l.sent), Gone(l), l.queue[0]);
  }

  lemma QueueKept(l: Ledger, c: Change)
    requires Allowed(l, c) && QueueOk(l)
    ensures QueueOk(Make(l, c))
  {
    match c
    case Sending(m) => SendKeepsQueue(l, m);
    case Taking(i, p) => TakeKeepsQueue(l, i, p);
    case Nothing =>
    case Giving(_, _, _) =>
    case Switching(_, _) =>
  }

  /** Everything sent is in exactly one place: handed to the client, held by a
      sender, or in the channel. */
  ghost predicate Balanced(l: Ledger) {
    multiset(ItemsOf(l.handed)) + Held(l.senders) + multiset(l.queue) == multiset(Tagged(l.sent))
  }

  lemma SendBalanced(l: Ledger, m: Message)
    requires Allowed(l, Sending(m)) && Balanced(l)
    ensures Balanced(Make(l, Sending(m)))
  {
    TaggedOneMore(l.sent, m);
  }

  lemma TakeBalanced(l: Ledger, i: nat, p: Sender)
    requires Allowed(l, Taking(i, p)) && Balanced(l)
    ensures Balanced(Make(l, Taking(i, p)))
  {
    HeldPut(l.senders, i, p);
    var x, rest := l.queue[0], l.queue[1..];
    FirstOfMultiset(l.queue);
    assert multiset(HeldBy(p)) == multiset(HeldBy(l.senders[i])) + multiset{x};
    MoveToHeld(multiset(ItemsOf(l.handed)), Held(l.senders), Held(l.senders[i := p]), multiset(rest),
               multiset(HeldBy(l.senders[i])), multiset(HeldBy(p)), x, multiset(Tagged(l.sent)));
  }

  lemma GiveBalanced(l: Ledger, i: nat, p: Sender, h: Handed)
    requires Allowed(l, Giving(i, p, h)) && Balanced(l)
    ensures Balanced(Make(l, Giving(i, p, h)))
  {
    HeldPut(l.senders, i, p);
    ItemsOneMore(l.handed, h, i);
    assert multiset(HeldBy(l.senders[i])) == multiset{h.item} + multiset(HeldBy(p));
    assert multiset(ItemsOf(l.handed + [h])) == multiset(ItemsOf(l.handed)) + multiset{h.item};
    MoveToHanded(multiset(ItemsOf(l.handed)), Held(l.senders), Held(l.senders[i := p]), multiset(l.queue),
                 multiset(HeldBy(l.senders[i])), multiset(HeldBy(p)), h.item, multiset(Tagged(l.sent)));
  }

  lemma SwitchBalanced(l: Ledger, i: nat, p: Sender)
    requires Allowed(l, Switching(i, p)) && Balanced(l)
    ensures Balanced(Make(l, Switching(i, p)))
  {
    HeldPut(l.senders, i, p);
    Unchanged(Held(l.senders), Held(l.senders[i := p]), multiset(HeldBy(p)));
  }

  lemma BalancedKept(l: Ledger, c: Change)
    requires Allowed(l, c) && Balanced(l)
    ensures Balanced(Make(l, c))
  {
    match c
    case Nothing =>
    case Sending(m) => SendBalanced(l, m);
    case Taking(i, p) => TakeBalanced(l, i, p);
    case Giving(i, p, h) => GiveBalanced(l, i, p, h);
    case Switching(i, p) => SwitchBalanced(l, i, p);
  }

  // ---------------------------------------------------------------- each sender

  ghost predicate InOrder(xs: seq<Item>, below: int) {
    && (forall a, b :: 0 <= a < b < |xs| ==> xs[a].pos < xs[b].pos)
    && (forall a :: 0 <= a < |xs| ==> xs[a].pos < below)
  }

  ghost predicate Genuine(xs: seq<Item>, ms: seq<Message>) {
    forall a :: 0 <= a < |xs| ==> xs[a].pos < |ms| && xs[a].msg == ms[xs[a].pos]
  }

  /** What sender i took is a subsequence of what was sent, and it handed over
      all of it but what it still holds, in the same order. */
  ghost predicate SenderOk(l: Ledger, i: nat)
    requires i < |l.senders| && i < |l.received|
  {
    && InOrder(l.received[i], Gone(l))
    && Genuine(l.received[i], l.sent)
    && ItemsFrom(l.handed, i) + HeldBy(l.senders[i]) == l.received[i]
  }

  ghost predicate SendersOk(l: Ledger) {
    |l.received| == |l.senders| && forall i :: 0 <= i < |l.senders| ==> SenderOk(l, i)
  }

  lemma TakerKept(l: Ledger, i: nat, p: Sender)
    requires Allowed(l, Taking(i, p)) && QueueOk(l) && |l.received| == |l.senders| && SenderOk(l, i)
    ensures SenderOk(Make(l, Taking(i, p)), i)
  {
    TaggedAt(l.sent);
    var x := l.queue[0];
    assert x == Tagged(l.sent)[Gone(l)];
    Regroup(ItemsFrom(l.handed, i), HeldBy(l.senders[i]), [x]);
  }

  lemma GiverKept(l: Ledger, i: nat, p: Sender, h: Handed)
    requires Allowed(l, Giving(i, p, h)) && |l.received| == |l.senders| && SenderOk(l, i)
    ensures SenderOk(Make(l, Giving(i, p, h)), i)
  {
    ItemsOneMore(l.handed, h, i);
    Regroup(ItemsFrom(l.handed, i), [h.item], HeldBy(p));
  }

  predicate Concerns(c: Change, j: nat) {
    (c.Taking? || c.Giving?) && c.i == j
  }

  lemma OthersKept(l: Ledger, c: Change, j: nat)
    requires Allowed(l, c) && |l.received| == |l.senders| && j < |l.senders| && SenderOk(l, j)
    requires !Concerns(c, j)
    ensures SenderOk(Make(l, c), j)
  {
    if c.Giving? {
      ItemsOneMore(l.handed, c.h, j);
    }
  }

  lemma SenderKept(l: Ledger, c: Change, j: nat)
    requires Allowed(l, c) && QueueOk(l) && SendersOk(l) && j < |l.senders|
    ensures SenderOk(Make(l, c), j)
  {
    assert SenderOk(l, j);
    if !Concerns(c, j) {
      OthersKept(l, c, j);
    } else if c.Taking? {
      TakerKept(l, j, c.p);
    } else {
      GiverKept(l, j, c.p, c.h);
    }
  }

  lemma SendersKept(l: Ledger, c: Change)
    requires Allowed(l, c) && QueueOk(l) && SendersOk(l)
    ensures SendersOk(Make(l, c))
  {
    forall j | 0 <= j < |l.senders| ensures SenderOk(Make(l, c), j) {
      SenderKept(l, c, j);
    }
  }

  // ---------------------------------------------------------------- every run

  ghost predicate Inv(s: State) {
    BatchesOk(s) && QueueOk(LedgerOf(s)) && Balanced(LedgerOf(s)) && SendersOk(LedgerOf(s))
  }

  lemma StepKeepsInv(s: State, a: Step)
    requires Inv(s) && Enabled(s, a)
    ensures Inv(Next(s, a))
  {
    BatchesStep(s, a);
    StepIsAChange(s, a);
    QueueKept(LedgerOf(s), ChangeOf(s, a));
    BalancedKept(LedgerOf(s), ChangeOf(s, a));
    SendersKept(LedgerOf(s), ChangeOf(s, a));
  }

  lemma {:induction false} RunKeepsInv(s: State, run: seq<Step>)
    requires Inv(s) && CanRun(s, run)
    ensures Inv(After(s, run))
    decreases |run|
  {
    if run != [] {
      StepKeepsInv(s, run[0]);
      RunKeepsInv(Next(s, run[0]), run[1..]);
    }
  }

  lemma StartInv(n: nat, batchMode: bool)
    ensures Inv(Start(n, batchMode))
  {
    TotalOfNothing(HeldParts(seq(n, _ => Waiting)));
    var l := LedgerOf(Start(n, batchMode));
    forall i | 0 <= i < n ensures SenderOk(l, i) {}
  }

  lemma ReachableInv(s: State)
    requires Reachable(s)
    ensures Inv(s)
  {
    var n: nat, b, run :| CanRun(Start(n, b), run) && After(Start(n, b), run) == s;
    StartInv(n, b);
    RunKeepsInv(Start(n, b), run);
  }

  /** In every interleaving: the messages handed to the client, held by senders
      and waiting in the channel are together exactly the messages sent, each
      once; the channel is the newest part of the send order and never holds
      more than its capacity. */
  lemma Conservation(s: State)
    requires Reachable(s)
    ensures multiset(ItemsOf(s.handed)) + Held(s.senders) + multiset(s.queue) == multiset(Tagged(s.sent))
    ensures |s.queue| <= 1000 && |s.queue| <= |s.sent| == |Tagged(s.sent)|
    ensures s.queue == Tagged(s.sent)[|s.sent| - |s.queue|..]
  {
    ReachableInv(s);
    TaggedAt(s.sent);
  }

  /** Each sender takes a subsequence of the send order and hands it over in
      that order. */
  lemma SendersKeepOrder(s: State, i: nat)
    requires Reachable(s) && i < |s.senders|
    ensures |s.received| == |s.senders|
    ensures ItemsFrom(s.handed, i) + HeldBy(s.senders[i]) == s.received[i]
    ensures forall a, b :: 0 <= a < b < |s.received[i]| ==> s.received[i][a].pos < s.received[i][b].pos
    ensures forall a :: 0 <= a < |s.received[i]| ==>
      s.received[i][a].pos < |s.sent| && s.received[i][a].msg == s.sent[s.received[i][a].pos]
  {
    ReachableInv(s);
    assert SenderOk(LedgerOf(s), i);
  }

  // ---------------------------------------------------------------- one sender

  ghost predicate OneLine(l: Ledger) {
    |l.senders| == 1 && ItemsOf(l.handed) + HeldBy(l.senders[0]) + l.queue == Tagged(l.sent)
  }

  lemma OneLineTakes(l: Ledger, i: nat, p: Sender)
    requires Allowed(l, Taking(i, p)) && OneLine(l)
    ensures OneLine(Make(l, Taking(i, p)))
  {
    var a, h, x, rest := ItemsOf(l.handed), HeldBy(l.senders[0]), l.queue[0], l.queue[1..];
    assert l.queue == [x] + rest;
    Regroup(a + h, [x], rest);
    Regroup(a, h, [x]);
  }

  lemma OneLineKept(l: Ledger, c: Change)
    requires Allowed(l, c) && OneLine(l)
    ensures OneLine(Make(l, c))
  {
    var a := ItemsOf(l.handed);
    match c
    case Nothing =>
    case Sending(m) =>
      TaggedOneMore(l.sent, m);
      Regroup(a + HeldBy(l.senders[0]), l.queue, [Item(|l.sent|, m)]);
    case Taking(i, p) => OneLineTakes(l, i, p);
    case Giving(i, p, h) =>
      ItemsOneMore(l.handed, h, i);
      Regroup(a, [h.item], HeldBy(p));
    case Switching(i, p) =>
  }

  lemma {:induction false} OneLineRun(s: State, run: seq<Step>)
    requires OneLine(LedgerOf(s)) && BatchesOk(s) && CanRun(s, run)
    ensures OneLine(LedgerOf(After(s, run)))
    decreases |run|
  {
    if run != [] {
      StepIsAChange(s, run[0]);
      OneLineKept(LedgerOf(s), ChangeOf(s, run[0]));
      BatchesStep(s, run[0]);
      OneLineRun(Next(s, run[0]), run[1..]);
    }
  }

  /** With one sender, what was handed over, what is held and the channel are
      one line: the send order itself. */
  lemma OneSenderIsFifo(batchMode: bool, run: seq<Step>)
    requires CanRun(Start(1, batchMode), run)
    ensures var s := After(Start(1, batchMode), run);
      |s.senders| == 1 && ItemsOf(s.handed) + HeldBy(s.senders[0]) + s.queue == Tagged(s.sent)
  {
    OneLineRun(Start(1, batchMode), run);
  }
}
