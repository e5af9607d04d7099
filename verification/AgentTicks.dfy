/** Putting runs of the agent together, and what a whole tick of each collector
    does. */
module AgentTicks {
  import opened Numbers
  import opened Agent

  lemma {:induction false} CanRunConcat(s: State, r1: seq<Step>, r2: seq<Step>)
    requires CanRun(s, r1) && CanRun(After(s, r1), r2)
    ensures CanRun(s, r1 + r2)
    decreases |r1|
  {
    if r1 == [] {
      assert r1 + r2 == r2;
    } else {
      assert (r1 + r2)[0] == r1[0] && (r1 + r2)[1..] == r1[1..] + r2;
      CanRunConcat(Next(s, r1[0]), r1[1..], r2);
    }
  }

  lemma {:induction false} AfterConcat(s: State, r1: seq<Step>, r2: seq<Step>)
    requires CanRun(s, r1) && CanRun(After(s, r1), r2) && CanRun(s, r1 + r2)
    ensures After(s, r1 + r2) == After(After(s, r1), r2)
    decreases |r1|
  {
    if r1 == [] {
      assert r1 + r2 == r2;
    } else {
      assert (r1 + r2)[0] == r1[0] && (r1 + r2)[1..] == r1[1..] + r2;
      AfterConcat(Next(s, r1[0]), r1[1..], r2);
    }
  }

  lemma RunConcat(s: State, r1: seq<Step>, r2: seq<Step>)
    requires CanRun(s, r1) && CanRun(After(s, r1), r2)
    ensures CanRun(s, r1 + r2) && After(s, r1 + r2) == After(After(s, r1), r2)
  {
    CanRunConcat(s, r1, r2);
    AfterConcat(s, r1, r2);
  }

  lemma OneStep(s: State, a: Step)
    requires Enabled(s, a)
    ensures CanRun(s, [a]) && After(s, [a]) == Next(s, a)
  {
    assert [a][1..] == [];
    assert CanRun(Next(s, a), []) && After(Next(s, a), []) == Next(s, a);
  }

  lemma StartIsReachable(n: nat, batchMode: bool)
    ensures Reachable(Start(n, batchMode))
  {
    assert CanRun(Start(n, batchMode), []) && After(Start(n, batchMode), []) == Start(n, batchMode);
  }

  lemma ReachableNext(s: State, a: Step)
    requires Reachable(s) && Enabled(s, a)
    ensures Reachable(Next(s, a))
  {
    var n: nat, b, run :| CanRun(Start(n, b), run) && After(Start(n, b), run) == s;
    OneStep(s, a);
    RunConcat(Start(n, b), run, [a]);
  }

  lemma ReachableRun(s: State, run: seq<Step>)
    requires Reachable(s) && CanRun(s, run)
    ensures Reachable(After(s, run))
  {
    var n: nat, b, before :| CanRun(Start(n, b), before) && After(Start(n, b), before) == s;
    RunConcat(Start(n, b), before, run);
  }

  /** The runtime collector sends the rest of its gauges while there is room. */
  lemma {:induction false} SendGauges(s: State) returns (s': State)
    requires Reachable(s) && !s.panicked && !s.closed && s.runtime.Gauges?
    requires |s.queue| + |s.runtime.todo| <= CAPACITY
    ensures Reachable(s') && s'.runtime == Gauges([]) && |s'.queue| == |s.queue| + |s.runtime.todo|
    ensures s'.sent == s.sent + s.runtime.todo
    ensures s' == s.(runtime := s'.runtime, queue := s'.queue, sent := s'.sent)
    decreases |s.runtime.todo|
  {
    if s.runtime.todo == [] {
      s' := s;
    } else {
      ReachableNext(s, SendRuntimeGauge);
      s' := SendGauges(Next(s, SendRuntimeGauge));
      assert [s.runtime.todo[0]] + s.runtime.todo[1..] == s.runtime.todo;
    }
  }

  lemma CountAndSend(s: State) returns (s': State)
    requires Reachable(s) && !s.panicked && !s.closed && s.runtime == Gauges([]) && |s.queue| < CAPACITY
    ensures Reachable(s') && |s'.queue| == |s.queue| + 1 && s'.sent == s.sent + [PollCount]
    ensures s' == s.(runtime := Polling, queue := s'.queue, sent := s'.sent,
                     polls := s.polls + 1, pollCounter := Wrap64(s.pollCounter + 1))
  {
    ReachableNext(s, CountPoll);
    var s1 := Next(s, CountPoll);
    ReachableNext(s1, SendPollCount);
    s' := Next(s1, SendPollCount);
  }

  /** A whole tick: all gauges as they come, then the poll is counted, and then it
      is sent. */
  lemma WholeTick(s: State, gauges: seq<Message>) returns (s': State)
    requires Reachable(s) && !s.panicked && !s.closed && s.runtime == Polling && IsTick(gauges)
    requires |s.queue| + |gauges| + 1 <= CAPACITY
    ensures Reachable(s') && |s'.queue| == |s.queue| + |gauges| + 1 && s'.sent == s.sent + gauges + [PollCount]
    ensures s' == s.(queue := s'.queue, sent := s'.sent, polls := s.polls + 1, pollCounter := Wrap64(s.pollCounter + 1))
  {
    ReachableNext(s, TickRuntime(gauges));
    var s1 := SendGauges(Next(s, TickRuntime(gauges)));
    s' := CountAndSend(s1);
  }

  /** The other collector is in a tick, or has just finished it. */
  lemma {:induction false} SendOthers(s: State) returns (s': State)
    requires Reachable(s) && !s.panicked && !s.closed
    requires s.gopsutil == Polling || (s.gopsutil.Gauges? && s.gopsutil.todo != [])
    requires |s.queue| + |TodoOf(s.gopsutil)| <= CAPACITY
    ensures Reachable(s') && |s'.queue| == |s.queue| + |TodoOf(s.gopsutil)|
    ensures s'.sent == s.sent + TodoOf(s.gopsutil)
    ensures s' == s.(gopsutil := Polling, queue := s'.queue, sent := s'.sent)
    decreases |TodoOf(s.gopsutil)|
  {
    if s.gopsutil == Polling {
      s' := s;
    } else {
      ReachableNext(s, SendGopsutilGauge);
      s' := SendOthers(Next(s, SendGopsutilGauge));
      assert [s.gopsutil.todo[0]] + s.gopsutil.todo[1..] == s.gopsutil.todo;
    }
  }

  function TodoOf(c: Collector): seq<Message> {
    if c.Gauges? then c.todo else []
  }

  /** A whole tick of the other collector: the gauges, and no poll. */
  lemma OtherTick(s: State, gauges: seq<Message>) returns (s': State)
    requires Reachable(s) && !s.panicked && !s.closed && s.gopsutil == Polling && IsTick(gauges)
    requires |s.queue| + |gauges| <= CAPACITY
    ensures Reachable(s') && |s'.queue| == |s.queue| + |gauges| && s'.sent == s.sent + gauges
    ensures s' == s.(queue := s'.queue, sent := s'.sent)
  {
    ReachableNext(s, TickGopsutil(gauges));
    s' := SendOthers(Next(s, TickGopsutil(gauges)));
  }
}
