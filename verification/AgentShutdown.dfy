/** The shutdown of the agent: main cancels the context, waits for the two
    collectors and closes the channel. */
module AgentShutdown {
  import opened Lists
  import opened Agent
  import opened AgentConservation
  import opened AgentTicks

  // ---------------------------------------------------------------- safety

  predicate SafeInv(s: State) {
    && !s.panicked
    && (s.closed <==> s.main == Closed)
    && (s.cancelled <==> s.main != Running)
    && (s.closed ==> s.runtime == Returned && s.gopsutil == Returned)
    && s.gopsutil != Gauges([]) && s.gopsutil != Counted
    && |s.queue| <= CAPACITY
  }

  lemma StepKeepsSafe(s: State, a: Step)
    requires SafeInv(s) && Enabled(s, a)
    ensures SafeInv(Next(s, a))
  {
  }

  lemma {:induction false} RunKeepsSafe(s: State, run: seq<Step>)
    requires SafeInv(s) && CanRun(s, run)
    ensures SafeInv(After(s, run))
    decreases |run|
  {
    if run != [] {
      StepKeepsSafe(s, run[0]);
      RunKeepsSafe(Next(s, run[0]), run[1..]);
    }
  }

  lemma ReachableSafe(s: State)
    requires Reachable(s)
    ensures SafeInv(s)
  {
    var n: nat, b, run :| CanRun(Start(n, b), run) && After(Start(n, b), run) == s;
    RunKeepsSafe(Start(n, b), run);
  }

  /** Nothing is ever sent on the closed channel, and it is closed only once:
      when it is closed both collectors have returned, and no further step sends
      or closes. */
  lemma NeverSendsAfterClose(s: State)
    requires Reachable(s)
    ensures !s.panicked
    ensures s.closed ==> s.runtime == Returned && s.gopsutil == Returned
    ensures s.closed ==> forall a :: Enabled(s, a) ==>
      !a.SendRuntimeGauge? && !a.SendPollCount? && !a.SendGopsutilGauge? && !a.Close?
  {
    ReachableSafe(s);
  }

  // ---------------------------------------------------------------- completion

  /** The sends a collector still has to make before it looks at the context. */
  function PendingSends(s: State): nat {
    (match s.runtime
     case Gauges(todo) => |todo| + 1
     case Counted => 1
     case _ => 0)
    +
    match s.gopsutil
    case Gauges(todo) => |todo|
    case _ => 0
  }

  predicate NoLiveSender(s: State) {
    forall i :: 0 <= i < |s.senders| ==> s.senders[i] == Exited
  }

  predicate Fits(s: State) {
    PendingSends(s) + |s.queue| <= CAPACITY
  }

  predicate ShuttingDown(s: State) {
    SafeInv(s) && s.cancelled && NoLiveSender(s)
  }

  /** No further tick is taken by a collector. */
  predicate Quiet(a: Step) {
    !a.TickRuntime? && !a.TickGopsutil?
  }

  predicate QuietRun(run: seq<Step>) {
    forall i :: 0 <= i < |run| ==> Quiet(run[i])
  }

  ghost predicate Stuck(s: State) {
    forall a :: Quiet(a) ==> !Enabled(s, a)
  }

  /** The steps left until the channel is closed, if nothing blocks. */
  function Budget(s: State): nat {
    (match s.runtime
     case Polling => 1
     case Gauges(todo) => |todo| + 3
     case Counted => 2
     case Returned => 0)
    +
    (match s.gopsutil
     case Polling => 1
     case Gauges(todo) => |todo| + 1
     case Counted => 0
     case Returned => 0)
    +
    if s.closed then 0 else 1
  }

  /** After the senders are gone every quiet step is progress, and whether the
      pending sends fit does not change. */
  lemma QuietStep(s: State, a: Step)
    requires ShuttingDown(s) && Enabled(s, a) && Quiet(a)
    ensures var s' := Next(s, a); ShuttingDown(s') && Budget(s') == Budget(s) - 1 && (Fits(s') <==> Fits(s))
  {
  }

  /** The next step of a collector, or of main. */
  function CollectorStep(s: State): Step {
    match s.runtime
    case Gauges(todo) => if todo == [] then CountPoll else SendRuntimeGauge
    case Counted => SendPollCount
    case Polling => StopRuntime
    case Returned =>
      match s.gopsutil
      case Gauges(_) => SendGopsutilGauge
      case Polling => StopGopsutil
      case _ => Close
  }

  lemma FittingMoves(s: State)
    requires ShuttingDown(s) && Fits(s) && !s.closed
    ensures !Stuck(s)
  {
    var a := CollectorStep(s);
    assert Quiet(a) && Enabled(s, a);
  }

  lemma {:induction false} QuietRunUses(s: State, run: seq<Step>)
    requires ShuttingDown(s) && CanRun(s, run) && QuietRun(run)
    ensures ShuttingDown(After(s, run)) && |run| + Budget(After(s, run)) == Budget(s)
    ensures Fits(After(s, run)) <==> Fits(s)
    decreases |run|
  {
    if run != [] {
      assert Quiet(run[0]);
      QuietStep(s, run[0]);
      QuietRunUses(Next(s, run[0]), run[1..]);
    }
  }

  /** After the signal, with no live sender and no further tick: every run is
      finite, and whichever it is, when it can go no further the channel is
      closed exactly if the pending sends fitted into the free slots. */
  lemma ShutdownCompletesIffSendsFit(s: State, run: seq<Step>)
    requires Reachable(s) && s.cancelled && NoLiveSender(s)
    requires CanRun(s, run) && QuietRun(run)
    ensures |run| <= Budget(s)
    ensures Stuck(After(s, run)) ==> (After(s, run).closed <==> Fits(s))
    ensures |run| == Budget(s) ==> After(s, run).closed
  {
    ReachableSafe(s);
    QuietRunUses(s, run);
    var t := After(s, run);
    if Fits(t) && !t.closed {
      FittingMoves(t);
    }
  }

  /** One run that goes on until nothing can move. */
  lemma {:induction false} SomeRunGetsStuck(s: State) returns (run: seq<Step>)
    requires ShuttingDown(s)
    ensures CanRun(s, run) && QuietRun(run) && Stuck(After(s, run))
    decreases Budget(s)
  {
    if Stuck(s) {
      run := [];
    } else {
      var a :| Quiet(a) && Enabled(s, a);
      QuietStep(s, a);
      var rest := SomeRunGetsStuck(Next(s, a));
      run := [a] + rest;
      assert run[1..] == rest;
    }
  }

  lemma StepKeepsOverfull(s: State, a: Step)
    requires ShuttingDown(s) && !Fits(s) && Enabled(s, a)
    ensures ShuttingDown(Next(s, a)) && !Fits(Next(s, a))
  {
  }

  /** If they do not fit, no run at all reaches the close, ticks included: main
      waits for a collector that waits for a free slot. */
  lemma {:induction false} OverfullNeverCloses(s: State, run: seq<Step>)
    requires ShuttingDown(s) && !Fits(s) && CanRun(s, run)
    ensures !After(s, run).closed
    decreases |run|
  {
    if run != [] {
      StepKeepsOverfull(s, run[0]);
      OverfullNeverCloses(Next(s, run[0]), run[1..]);
    }
  }

  // ---------------------------------------------------------------- with a live sender

  /** A call of a sender that is to exit was made after the close. */
  predicate ExitsOk(s: State) {
    forall i :: 0 <= i < |s.senders| && s.senders[i].Calling? && s.senders[i].next == ToExit ==> s.closed
  }

  lemma StepKeepsExits(s: State, a: Step)
    requires ExitsOk(s) && Enabled(s, a)
    ensures ExitsOk(Next(s, a))
  {
  }

  lemma {:induction false} RunKeepsExits(s: State, run: seq<Step>)
    requires ExitsOk(s) && CanRun(s, run)
    ensures ExitsOk(After(s, run))
    decreases |run|
  {
    if run != [] {
      StepKeepsExits(s, run[0]);
      RunKeepsExits(Next(s, run[0]), run[1..]);
    }
  }

  predicate Live(s: State, i: nat) {
    i < |s.senders| && s.senders[i] != Exited
  }

  /** The collectors and main are where they were. */
  predicate OnlySendersMoved(s: State, s': State) {
    s'.runtime == s.runtime && s'.gopsutil == s.gopsutil && s'.main == s.main && s'.closed == s.closed
  }

  /** A live sender of a channel that is not closed, on its way to the next
      receive. */
  function NextOf(p: Sender, i: nat): Step
    requires p != Exited
  {
    match p
    case Waiting => TickSender(i)
    case Draining(_) => Receive(i)
    case Calling(todo, _, _) => if todo != [] then Serialise(i) else CallReturns(i)
  }

  /** The steps before that receive. */
  function Distance(p: Sender): nat {
    match p
    case Waiting => 1
    case Calling(todo, _, _) => |todo| + 2
    case _ => 0
  }

  lemma SenderMoves(s: State, i: nat)
    requires SafeInv(s) && ExitsOk(s) && !s.closed && Live(s, i) && s.queue != []
    ensures
      var a := NextOf(s.senders[i], i);
      && Enabled(s, a) && OnlySendersMoved(s, Next(s, a)) && Live(Next(s, a), i)
      && if s.senders[i].Draining? then |Next(s, a).queue| < |s.queue|
         else Next(s, a).queue == s.queue && Distance(Next(s, a).senders[i]) < Distance(s.senders[i])
  {
  }

  /** It makes room for one more message. */
  lemma {:induction false} MakeRoom(s: State, i: nat) returns (run: seq<Step>)
    requires SafeInv(s) && ExitsOk(s) && !s.closed && Live(s, i)
    ensures CanRun(s, run)
    ensures var s' := After(s, run);
      SafeInv(s') && ExitsOk(s') && OnlySendersMoved(s, s') && Live(s', i) && |s'.queue| < CAPACITY
    decreases if Live(s, i) then Distance(s.senders[i]) else 0, |s.queue|
  {
    if |s.queue| < CAPACITY {
      run := [];
    } else {
      var a := NextOf(s.senders[i], i);
      SenderMoves(s, i);
      StepKeepsSafe(s, a);
      StepKeepsExits(s, a);
      if s.senders[i].Draining? {
        run := [a];
        OneStep(s, a);
      } else {
        var rest := MakeRoom(Next(s, a), i);
        run := [a] + rest;
        assert run[1..] == rest;
      }
    }
  }

  /** With room in the channel a collector, or main, has a step. */
  lemma CollectorMoves(s: State) returns (a: Step)
    requires SafeInv(s) && s.cancelled && !s.closed && |s.queue| < CAPACITY
    ensures Enabled(s, a) && Budget(Next(s, a)) == Budget(s) - 1
    ensures Next(s, a).senders == s.senders && Next(s, a).cancelled
  {
    a := CollectorStep(s);
  }

  /** As long as one sender lives the close can be reached: it makes room
      whenever a collector needs it. */
  lemma {:induction false} LiveSenderCloses(s: State, i: nat) returns (run: seq<Step>)
    requires SafeInv(s) && ExitsOk(s) && s.cancelled && Live(s, i)
    ensures CanRun(s, run) && After(s, run).closed
    decreases Budget(s)
  {
    if s.closed {
      run := [];
    } else {
      var room := MakeRoom(s, i);
      var s1 := After(s, room);
      var a := CollectorMoves(s1);
      StepKeepsSafe(s1, a);
      StepKeepsExits(s1, a);
      var rest := LiveSenderCloses(Next(s1, a), i);
      var tail := [a] + rest;
      assert tail[1..] == rest;
      RunConcat(s, room, tail);
      run := room + tail;
    }
  }

  /** After the signal: the close can be reached iff a sender still lives or the
      pending sends fit into the free slots. */
  lemma ClosesIffSendsFit(s: State)
    requires Reachable(s) && s.cancelled
    ensures Fits(s) || !NoLiveSender(s) <==> exists run :: CanRun(s, run) && After(s, run).closed
  {
    ReachableSafe(s);
    if !NoLiveSender(s) {
      var i :| 0 <= i < |s.senders| && s.senders[i] != Exited;
      var n: nat, b, before :| CanRun(Start(n, b), before) && After(Start(n, b), before) == s;
      RunKeepsExits(Start(n, b), before);
      var run := LiveSenderCloses(s, i);
    } else if Fits(s) {
      var run := SomeRunGetsStuck(s);
      ShutdownCompletesIffSendsFit(s, run);
    } else {
      forall run | CanRun(s, run) ensures !After(s, run).closed {
        OverfullNeverCloses(s, run);
      }
    }
  }

  // ---------------------------------------------------------------- what is lost

  /** What a shutdown loses is exactly what is still in the channel: once no
      sender is left, every message sent was handed over or is there. */
  lemma ShutdownLosesTheChannel(s: State)
    requires Reachable(s) && NoLiveSender(s)
    ensures multiset(Tagged(s.sent)) - multiset(ItemsOf(s.handed)) == multiset(s.queue)
  {
    Conservation(s);
    TotalOfNothing(HeldParts(s.senders));
    assert multiset(ItemsOf(s.handed)) + multiset(s.queue) == multiset(Tagged(s.sent));
  }

  // ---------------------------------------------------------------- it happens

  /** Whole ticks until another one does not fit. */
  lemma {:induction false} FillUp(s: State, gauges: seq<Message>) returns (s': State)
    requires Reachable(s) && !s.panicked && !s.closed && s.runtime == Polling && IsTick(gauges)
    ensures Reachable(s') && |s'.queue| + |gauges| + 1 > CAPACITY
    ensures s' == s.(queue := s'.queue, sent := s'.sent, polls := s'.polls, pollCounter := s'.pollCounter)
    decreases CAPACITY - |s.queue|
  {
    if |s.queue| + |gauges| + 1 > CAPACITY {
      s' := s;
    } else {
      var s1 := WholeTick(s, gauges);
      s' := FillUp(s1, gauges);
    }
  }

  /** All senders from the k-th on see the signal. */
  lemma {:induction false} StopSenders(s: State, k: nat) returns (s': State)
    requires Reachable(s) && s.cancelled && !s.panicked && k <= |s.senders|
    requires forall i :: 0 <= i < |s.senders| ==> s.senders[i] == if i < k then Exited else Waiting
    ensures Reachable(s') && NoLiveSender(s') && |s'.senders| == |s.senders| && s' == s.(senders := s'.senders)
    decreases |s.senders| - k
  {
    if k == |s.senders| {
      s' := s;
    } else {
      ReachableNext(s, StopSender(k));
      s' := StopSenders(Next(s, StopSender(k)), k + 1);
    }
  }

  /** Whatever the gauges of a tick, the number of senders and the mode: when the
      ticks come faster than the reports and all senders see the signal first, the
      agent never closes the channel. */
  lemma ShutdownCanHang(rateLimit: nat, batchMode: bool, gauges: seq<Message>) returns (s: State)
    requires IsTick(gauges)
    ensures Reachable(s) && s.cancelled && |s.senders| == rateLimit && NoLiveSender(s) && s.batchMode == batchMode
    ensures forall run :: CanRun(s, run) ==> !After(s, run).closed
  {
    var s0 := Start(rateLimit, batchMode);
    StartIsReachable(rateLimit, batchMode);
    var s1 := FillUp(s0, gauges);
    ReachableNext(s1, TickRuntime(gauges));
    var s2 := Next(s1, TickRuntime(gauges));
    ReachableNext(s2, Signal);
    s := StopSenders(Next(s2, Signal), 0);
    ReachableSafe(s);
    forall run | CanRun(s, run) ensures !After(s, run).closed {
      OverfullNeverCloses(s, run);
    }
  }
}
