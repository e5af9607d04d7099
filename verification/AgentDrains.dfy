/** A whole report of one sender: from its tick until it is in its select again. */
module AgentDrains {
  import opened Lists
  import opened Agent
  import opened AgentTicks
  import opened AgentShutdown
  import opened AgentSteps

  /** A drain that ends makes one call of all that it took, and none of nothing. */
  lemma DrainEnds(s: State, i: nat, a: Step)
    requires Reachable(s) && Enabled(s, a) && (a == DrainDone(i) || a == DrainClosed(i))
    ensures
      var p, held := Next(s, a).senders[i], HeldBy(s.senders[i]);
      && !p.Draining? && (held == [] ==> p == if a.DrainDone? then Waiting else Exited)
      && (held != [] ==> p.Calling? && p.todo == held && p.done == [])
  {
  }

  predicate Alone(run: seq<Step>, i: nat) {
    forall k :: 0 <= k < |run| ==> OfSender(run[k], i)
  }

  /** The messages as sender i serialises them now. */
  function Reading(s: State, i: nat, items: seq<Item>): (r: seq<Handed>)
    ensures |r| == |items|
    ensures forall k :: 0 <= k < |r| ==> r[k] == Handed(i, items[k], s.polls, s.pollCounter)
  {
    seq(|items|, k requires 0 <= k < |items| => Handed(i, items[k], s.polls, s.pollCounter))
  }

  function PlacesFrom(from: nat, n: nat): (r: seq<nat>)
    ensures |r| == n && forall k :: 0 <= k < n ==> r[k] == from + k
  {
    seq(n, k requires 0 <= k < n => from + k)
  }

  /** One call for each of n places. */
  function Singles(from: nat, n: nat): (r: seq<seq<nat>>)
    ensures |r| == n && forall k :: 0 <= k < n ==> r[k] == [from + k]
  {
    seq(n, k requires 0 <= k < n => [from + k])
  }

  lemma Cons(s: State, a: Step, rest: seq<Step>, i: nat)
    requires Enabled(s, a) && CanRun(Next(s, a), rest) && OfSender(a, i) && Alone(rest, i)
    ensures CanRun(s, [a] + rest) && After(s, [a] + rest) == After(Next(s, a), rest) && Alone([a] + rest, i)
  {
    assert ([a] + rest)[1..] == rest;
  }

  // ---------------------------------------------------------------- with a batch

  lemma {:induction false} TakeAll(s: State, i: nat) returns (run: seq<Step>, s': State)
    requires !s.panicked && s.batchMode && i < |s.senders| && s.senders[i].Draining?
    ensures CanRun(s, run) && After(s, run) == s' && Alone(run, i)
    ensures s'.senders == s.senders[i := Draining(s.senders[i].batch + s.queue)]
    ensures s' == s.(queue := [], senders := s'.senders, received := s'.received)
    decreases |s.queue|
  {
    var batch := s.senders[i].batch;
    if s.queue == [] {
      run, s' := [], s;
      assert batch + s.queue == batch;
    } else {
      var s1 := Next(s, Receive(i));
      var rest;
      rest, s' := TakeAll(s1, i);
      run := [Receive(i)] + rest;
      Cons(s, Receive(i), rest, i);
      Regroup(batch, [s.queue[0]], s.queue[1..]);
      assert [s.queue[0]] + s.queue[1..] == s.queue;
      assert s'.senders == s.senders[i := s'.senders[i]];
    }
  }

  lemma SerialiseOne(s: State, i: nat) returns (s': State)
    requires !s.panicked && i < |s.senders| && s.senders[i].Calling? && s.senders[i].todo != []
    ensures Enabled(s, Serialise(i)) && s' == Next(s, Serialise(i))
    ensures
      var c, n := s.senders[i], |s.handed|;
      && s'.senders == s.senders[i := Calling(c.todo[1..], c.done + [n], c.next)]
      && s'.calls == (if |c.todo| == 1 then s.calls + [c.done + [n]] else s.calls)
      && s'.handed == s.handed + Reading(s, i, [c.todo[0]])
    ensures s' == s.(senders := s'.senders, calls := s'.calls, handed := s'.handed)
  {
    s' := Next(s, Serialise(i));
    assert Reading(s, i, [s.senders[i].todo[0]]) == [Handed(i, s.senders[i].todo[0], s.polls, s.pollCounter)];
  }

  lemma PlacesSplit(done: seq<nat>, n: nat, m: nat)
    requires m > 0
    ensures done + [n] + PlacesFrom(n + 1, m - 1) == done + PlacesFrom(n, m)
  {
  }

  lemma ReadingSplit(s: State, s1: State, i: nat, items: seq<Item>)
    requires items != [] && s1.polls == s.polls && s1.pollCounter == s.pollCounter
    ensures Reading(s, i, [items[0]]) + Reading(s1, i, items[1..]) == Reading(s, i, items)
  {
  }

  lemma {:induction false} SerialiseAll(s: State, i: nat) returns (run: seq<Step>, s': State)
    requires !s.panicked && i < |s.senders| && s.senders[i].Calling? && s.senders[i].todo != []
    ensures CanRun(s, run) && After(s, run) == s' && Alone(run, i)
    ensures
      var c := s.senders[i];
      var places := c.done + PlacesFrom(|s.handed|, |c.todo|);
      && s'.senders == s.senders[i := Calling([], places, c.next)]
      && s'.calls == s.calls + [places]
      && s'.handed == s.handed + Reading(s, i, c.todo)
    ensures s' == s.(senders := s'.senders, calls := s'.calls, handed := s'.handed)
    decreases |s.senders[i].todo|
  {
    var c := s.senders[i];
    var s1 := SerialiseOne(s, i);
    var rest := [];
    if |c.todo| == 1 {
      s' := s1;
      assert c.todo == [c.todo[0]] && PlacesFrom(|s.handed|, 1) == [|s.handed|];
    } else {
      rest, s' := SerialiseAll(s1, i);
      Regroup(s.handed, Reading(s, i, [c.todo[0]]), Reading(s1, i, c.todo[1..]));
      PlacesSplit(c.done, |s.handed|, |c.todo|);
      ReadingSplit(s, s1, i, c.todo);
    }
    run := [Serialise(i)] + rest;
    Cons(s, Serialise(i), rest, i);
    assert s'.senders == s.senders[i := s'.senders[i]];
  }

  /** Where a sender is after its report. */
  function Home(s: State): Sender {
    if s.closed then Exited else Waiting
  }

  lemma EmptyDrain(s: State, i: nat) returns (run: seq<Step>, s': State)
    requires !s.panicked && i < |s.senders| && s.senders[i] == Draining([]) && s.queue == []
    ensures CanRun(s, run) && After(s, run) == s' && Alone(run, i)
    ensures s' == s.(senders := s.senders[i := Home(s)])
  {
    var a := if s.closed then DrainClosed(i) else DrainDone(i);
    run, s' := [a] + [], Next(s, a);
    Cons(s, a, [], i);
  }

  /** The default case, or the closed one, with something in the batch. */
  lemma SendBatch(s: State, i: nat) returns (run: seq<Step>, s': State)
    requires !s.panicked && i < |s.senders| && s.senders[i].Draining? && s.senders[i].batch != [] && s.queue == []
    ensures CanRun(s, run) && After(s, run) == s' && Alone(run, i)
    ensures s'.senders == s.senders[i := Home(s)]
    ensures s'.calls == s.calls + [PlacesFrom(|s.handed|, |s.senders[i].batch|)]
    ensures s'.handed == s.handed + Reading(s, i, s.senders[i].batch)
    ensures s' == s.(senders := s'.senders, calls := s'.calls, handed := s'.handed)
  {
    var batch := s.senders[i].batch;
    var a := if s.closed then DrainClosed(i) else DrainDone(i);
    var s1 := Next(s, a);
    var body, s2 := SerialiseAll(s1, i);
    assert [] + PlacesFrom(|s.handed|, |batch|) == PlacesFrom(|s.handed|, |batch|);
    assert Reading(s1, i, batch) == Reading(s, i, batch);
    s' := Next(s2, CallReturns(i));
    Cons(s2, CallReturns(i), [], i);
    RunConcat(s1, body, [CallReturns(i)] + []);
    Cons(s, a, body + ([CallReturns(i)] + []), i);
    run := [a] + (body + ([CallReturns(i)] + []));
    assert s'.senders == s.senders[i := Home(s)];
  }

  // ---------------------------------------------------------------- without

  lemma SendOne(s: State, i: nat) returns (run: seq<Step>, s': State)
    requires !s.panicked && !s.batchMode && i < |s.senders| && s.senders[i] == Draining([]) && s.queue != []
    ensures CanRun(s, run) && After(s, run) == s' && Alone(run, i)
    ensures s'.calls == s.calls + [[|s.handed|]] && s'.handed == s.handed + Reading(s, i, [s.queue[0]])
    ensures s' == s.(queue := s.queue[1..], received := s'.received, calls := s'.calls, handed := s'.handed)
  {
    var s1 := Next(s, Receive(i));
    var s2 := Next(s1, Serialise(i));
    s' := Next(s2, CallReturns(i));
    Cons(s2, CallReturns(i), [], i);
    Cons(s1, Serialise(i), [CallReturns(i)] + [], i);
    Cons(s, Receive(i), [Serialise(i)] + ([CallReturns(i)] + []), i);
    run := [Receive(i)] + ([Serialise(i)] + ([CallReturns(i)] + []));
    assert [s.queue[0]][1..] == [] && [] + [|s.handed|] == [|s.handed|];
    assert Reading(s, i, [s.queue[0]]) == [Handed(i, s.queue[0], s.polls, s.pollCounter)];
    assert s'.senders == s.senders;
  }

  lemma SinglesSplit(n: nat, m: nat)
    requires m > 0
    ensures [[n]] + Singles(n + 1, m - 1) == Singles(n, m)
  {
  }

  lemma JoinSends(s: State, s1: State, s': State, i: nat)
    requires s.queue != [] && s1.polls == s.polls && s1.pollCounter == s.pollCounter && s1.queue == s.queue[1..]
    requires s1.calls == s.calls + [[|s.handed|]] && s1.handed == s.handed + Reading(s, i, [s.queue[0]])
    requires s'.calls == s1.calls + Singles(|s1.handed|, |s1.queue|)
    requires s'.handed == s1.handed + Reading(s1, i, s1.queue)
    ensures s'.calls == s.calls + Singles(|s.handed|, |s.queue|) && s'.handed == s.handed + Reading(s, i, s.queue)
  {
    SinglesSplit(|s.handed|, |s.queue|);
    ReadingSplit(s, s1, i, s.queue);
    Regroup(s.calls, [[|s.handed|]], Singles(|s.handed| + 1, |s.queue| - 1));
    Regroup(s.handed, Reading(s, i, [s.queue[0]]), Reading(s1, i, s.queue[1..]));
  }

  lemma {:induction false} SendEach(s: State, i: nat) returns (run: seq<Step>, s': State)
    requires !s.panicked && !s.batchMode && i < |s.senders| && s.senders[i] == Draining([])
    ensures CanRun(s, run) && After(s, run) == s' && Alone(run, i)
    ensures s'.calls == s.calls + Singles(|s.handed|, |s.queue|) && s'.handed == s.handed + Reading(s, i, s.queue)
    ensures s' == s.(queue := [], received := s'.received, calls := s'.calls, handed := s'.handed)
    decreases |s.queue|
  {
    if s.queue == [] {
      run, s' := [], s;
    } else {
      var first, s1 := SendOne(s, i);
      var rest;
      rest, s' := SendEach(s1, i);
      RunConcat(s, first, rest);
      run := first + rest;
      JoinSends(s, s1, s', i);
    }
  }

  // ---------------------------------------------------------------- the report

  /** The calls of a report of n messages whose places begin at from. */
  function CallsOf(batchMode: bool, from: nat, n: nat): seq<seq<nat>> {
    if !batchMode then Singles(from, n) else if n == 0 then [] else [PlacesFrom(from, n)]
  }

  lemma BatchReport(s: State, i: nat) returns (run: seq<Step>, s': State)
    requires !s.panicked && s.batchMode && i < |s.senders| && s.senders[i] == Draining([])
    ensures CanRun(s, run) && After(s, run) == s' && Alone(run, i)
    ensures s'.queue == [] && s'.senders == s.senders[i := Home(s)]
    ensures s'.calls == s.calls + CallsOf(true, |s.handed|, |s.queue|)
    ensures s'.handed == s.handed + Reading(s, i, s.queue)
    ensures s' == s.(queue := [], senders := s'.senders, received := s'.received,
                     calls := s'.calls, handed := s'.handed)
  {
    var take, s1 := TakeAll(s, i);
    assert [] + s.queue == s.queue;
    assert Reading(s1, i, s.queue) == Reading(s, i, s.queue);
    var send;
    if s.queue == [] {
      send, s' := EmptyDrain(s1, i);
    } else {
      send, s' := SendBatch(s1, i);
    }
    RunConcat(s, take, send);
    run := take + send;
    assert s'.senders == s.senders[i := Home(s)];
  }

  lemma SingleReport(s: State, i: nat) returns (run: seq<Step>, s': State)
    requires !s.panicked && !s.batchMode && i < |s.senders| && s.senders[i] == Draining([])
    ensures CanRun(s, run) && After(s, run) == s' && Alone(run, i)
    ensures s'.queue == [] && s'.senders == s.senders[i := Home(s)]
    ensures s'.calls == s.calls + CallsOf(false, |s.handed|, |s.queue|)
    ensures s'.handed == s.handed + Reading(s, i, s.queue)
    ensures s' == s.(queue := [], senders := s'.senders, received := s'.received,
                     calls := s'.calls, handed := s'.handed)
  {
    var send, s1 := SendEach(s, i);
    var end;
    end, s' := EmptyDrain(s1, i);
    RunConcat(s, send, end);
    run := send + end;
  }

  /** Whatever the others do not do meanwhile: a sender in its select can report by
      itself all that is in the channel, in order, and is then in its select again,
      or has returned if the channel is closed. With a batch that is exactly one
      client call, none for an empty channel; without, one for each message. */
  lemma WholeReport(s: State, i: nat) returns (run: seq<Step>)
    requires Reachable(s) && i < |s.senders| && s.senders[i] == Waiting
    ensures CanRun(s, run) && Alone(run, i)
    ensures
      var s' := After(s, run);
      && s'.queue == [] && s'.senders == s.senders[i := if s.closed then Exited else Waiting]
      && s'.handed == s.handed + Reading(s, i, s.queue)
      && s'.calls == s.calls + CallsOf(s.batchMode, |s.handed|, |s.queue|)
      && s' == s.(queue := [], senders := s'.senders, received := s'.received, calls := s'.calls, handed := s'.handed)
  {
    ReachableSafe(s);
    var a := TickSender(i);
    var s1 := Next(s, a);
    var rest, s';
    if s.batchMode {
      rest, s' := BatchReport(s1, i);
    } else {
      rest, s' := SingleReport(s1, i);
    }
    Cons(s, a, rest, i);
    run := [a] + rest;
    assert Reading(s1, i, s.queue) == Reading(s, i, s.queue);
    assert s'.senders == s.senders[i := if s.closed then Exited else Waiting];
  }
}
