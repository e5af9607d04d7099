/** What each goroutine of the agent can do in a reachable state, and that the
    channel, the signal and the end of the other goroutines are all it waits for. */
module AgentSteps {
  import opened Agent
  import opened AgentShutdown

  predicate OfRuntime(a: Step) {
    a.TickRuntime? || a.SendRuntimeGauge? || a.CountPoll? || a.SendPollCount? || a.StopRuntime?
  }

  predicate OfGopsutil(a: Step) {
    a.TickGopsutil? || a.SendGopsutilGauge? || a.StopGopsutil?
  }

  predicate OfSender(a: Step, i: nat) {
    (a.TickSender? || a.Receive? || a.DrainDone? || a.DrainClosed? || a.Serialise? || a.CallReturns? || a.StopSender?)
    && a.i == i
  }

  /** Its next step is a send. */
  predicate SendsNext(c: Collector) {
    c == Counted || (c.Gauges? && c.todo != [])
  }

  /** The runtime collector is held up by nothing but a full channel, in the middle
      of a tick by nothing else either, and it returns only from its select. */
  lemma RuntimeMoves(s: State)
    requires Reachable(s)
    ensures (exists a :: OfRuntime(a) && Enabled(s, a))
       <==> s.runtime != Returned && (SendsNext(s.runtime) ==> |s.queue| < 1000)
    ensures Enabled(s, StopRuntime) <==> s.runtime == Polling && s.cancelled
    ensures forall gauges :: IsTick(gauges) ==> (Enabled(s, TickRuntime(gauges)) <==> s.runtime == Polling)
  {
    ReachableSafe(s);
    var a := match s.runtime
      case Polling => TickRuntime([])
      case Gauges(todo) => if todo == [] then CountPoll else SendRuntimeGauge
      case _ => SendPollCount;
    assert OfRuntime(a);
    if s.runtime != Returned && (SendsNext(s.runtime) ==> |s.queue| < 1000) {
      assert Enabled(s, a);
    }
  }

  lemma GopsutilMoves(s: State)
    requires Reachable(s)
    ensures (exists a :: OfGopsutil(a) && Enabled(s, a))
       <==> s.gopsutil != Returned && (SendsNext(s.gopsutil) ==> |s.queue| < 1000)
    ensures Enabled(s, StopGopsutil) <==> s.gopsutil == Polling && s.cancelled
    ensures forall gauges :: IsTick(gauges) ==> (Enabled(s, TickGopsutil(gauges)) <==> s.gopsutil == Polling)
  {
    ReachableSafe(s);
    var a := if s.gopsutil == Polling then TickGopsutil([]) else SendGopsutilGauge;
    assert OfGopsutil(a);
    if s.gopsutil != Returned && (SendsNext(s.gopsutil) ==> |s.queue| < 1000) {
      assert Enabled(s, a);
    }
  }

  function NextOfSender(s: State, i: nat): Step
    requires i < |s.senders| && s.senders[i] != Exited
  {
    match s.senders[i]
    case Waiting => TickSender(i)
    case Draining(_) => if s.queue != [] then Receive(i) else if s.closed then DrainClosed(i) else DrainDone(i)
    case Calling(todo, _, _) => if todo != [] then Serialise(i) else CallReturns(i)
  }

  /** A sender is never held up. */
  lemma SenderMoves(s: State, i: nat)
    requires Reachable(s) && i < |s.senders|
    ensures (exists a :: OfSender(a, i) && Enabled(s, a)) <==> s.senders[i] != Exited
  {
    ReachableSafe(s);
    if s.senders[i] != Exited {
      var a := NextOfSender(s, i);
      assert OfSender(a, i) && Enabled(s, a);
    }
  }

  /** In its drain it receives while there is something to receive; it leaves with
      the default case iff there is nothing, and with the closed case iff there never
      will be. From its select it returns only after the signal. */
  lemma SenderChooses(s: State, i: nat)
    requires Reachable(s) && i < |s.senders|
    ensures Enabled(s, TickSender(i)) <==> s.senders[i] == Waiting
    ensures Enabled(s, StopSender(i)) <==> s.senders[i] == Waiting && s.cancelled
    ensures s.senders[i].Draining? ==>
      && (Enabled(s, Receive(i)) <==> s.queue != [])
      && (Enabled(s, DrainDone(i)) <==> s.queue == [] && !s.closed)
      && (Enabled(s, DrainClosed(i)) <==> s.queue == [] && s.closed)
  {
    ReachableSafe(s);
  }

  /** Main waits for the signal and then for both collectors, not for senders. */
  lemma MainMoves(s: State)
    requires Reachable(s)
    ensures Enabled(s, Signal) <==> !s.cancelled
    ensures Enabled(s, Close) <==> s.cancelled && !s.closed && s.runtime == Returned && s.gopsutil == Returned
  {
    ReachableSafe(s);
  }

  /** Whoever has returned saw the signal or the close, which comes after it. */
  ghost predicate AllAtWork(s: State) {
    !s.cancelled ==>
      && s.runtime != Returned && s.gopsutil != Returned
      && forall i :: 0 <= i < |s.senders| ==> s.senders[i] != Exited
  }

  lemma StepKeepsAtWork(s: State, a: Step)
    requires SafeInv(s) && ExitsOk(s) && AllAtWork(s) && Enabled(s, a)
    ensures AllAtWork(Next(s, a))
  {
  }

  lemma {:induction false} RunKeepsAtWork(s: State, run: seq<Step>)
    requires SafeInv(s) && ExitsOk(s) && AllAtWork(s) && CanRun(s, run)
    ensures AllAtWork(After(s, run))
    decreases |run|
  {
    if run != [] {
      StepKeepsAtWork(s, run[0]);
      StepKeepsSafe(s, run[0]);
      StepKeepsExits(s, run[0]);
      RunKeepsAtWork(Next(s, run[0]), run[1..]);
    }
  }

  lemma NobodyReturnsBeforeTheSignal(s: State, i: nat)
    requires Reachable(s) && !s.cancelled && i < |s.senders|
    ensures s.runtime != Returned && s.gopsutil != Returned && s.senders[i] != Exited
  {
    var n: nat, b, run :| CanRun(Start(n, b), run) && After(Start(n, b), run) == s;
    RunKeepsAtWork(Start(n, b), run);
  }
}
