/** The client calls of a run of the agent: each serialised message is in exactly
    one of them. */
module AgentCalls {
  import opened Lists
  import opened Agent
  import opened AgentConservation

  /** The places of the messages in the body of a call that is not complete. */
  function OpenBy(p: Sender): seq<nat> {
    if p.Calling? && p.todo != [] then p.done else []
  }

  function OpenParts(ps: seq<Sender>): seq<seq<nat>> {
    seq(|ps|, i requires 0 <= i < |ps| => OpenBy(ps[i]))
  }

  /** Every place in the history is in one complete or one open call. */
  ghost predicate Covered(calls: seq<seq<nat>>, ps: seq<Sender>, places: nat) {
    Total<nat>(calls) + Total<nat>(OpenParts(ps)) == multiset(Iota(places))
  }

  lemma MovedToOpen(calls: multiset<nat>, open: multiset<nat>, open': multiset<nat>, done: multiset<nat>, n: nat,
                    all: multiset<nat>)
    requires calls + open == all && open' + done == open + (done + multiset{n})
    ensures calls + open' == all + multiset{n}
  {
    assert open' + done == (open + multiset{n}) + done;
    Unchanged(open + multiset{n}, open', done);
  }

  lemma MovedToCalls(calls: multiset<nat>, open: multiset<nat>, open': multiset<nat>, done: multiset<nat>, n: nat,
                     all: multiset<nat>)
    requires calls + open == all && open' + done == open
    ensures calls + (done + multiset{n}) + open' == all + multiset{n}
  {
  }

  lemma PlacesOneMore(n: nat)
    ensures multiset(Iota(n + 1)) == multiset(Iota(n)) + multiset{n}
  {
    IotaOneMore(n);
  }

  lemma OpenPut(ps: seq<Sender>, i: nat, p: Sender)
    requires i < |ps|
    ensures Total<nat>(OpenParts(ps[i := p])) + multiset(OpenBy(ps[i]))
         == Total<nat>(OpenParts(ps)) + multiset(OpenBy(p))
  {
    assert OpenParts(ps[i := p]) == OpenParts(ps)[i := OpenBy(p)];
    TotalPut<nat>(OpenParts(ps), i, OpenBy(p));
  }

  lemma SerialiseCovers(calls: seq<seq<nat>>, ps: seq<Sender>, i: nat, places: nat)
    requires Covered(calls, ps, places) && i < |ps| && ps[i].Calling? && ps[i].todo != []
    ensures var c := ps[i];
      Covered(if |c.todo| == 1 then calls + [c.done + [places]] else calls, ps[i := Serialised(c, places)], places + 1)
  {
    var c := ps[i];
    var done: multiset<nat> := multiset(c.done);
    OpenPut(ps, i, Serialised(c, places));
    PlacesOneMore(places);
    var open, open' := Total<nat>(OpenParts(ps)), Total<nat>(OpenParts(ps[i := Serialised(c, places)]));
    if |c.todo| == 1 {
      TotalOneMore<nat>(calls, c.done + [places]);
      MovedToCalls(Total<nat>(calls), open, open', done, places, multiset(Iota(places)));
    } else {
      MovedToOpen(Total<nat>(calls), open, open', done, places, multiset(Iota(places)));
    }
  }

  lemma OtherStepsKeepOpen(s: State, a: Step)
    requires Enabled(s, a) && !a.Serialise?
    ensures Next(s, a).calls == s.calls && Next(s, a).handed == s.handed
    ensures OpenParts(Next(s, a).senders) == OpenParts(s.senders)
  {
  }

  lemma SerialiseCovered(s: State, i: nat)
    requires Enabled(s, Serialise(i)) && Covered(s.calls, s.senders, |s.handed|)
    ensures var s' := Next(s, Serialise(i)); Covered(s'.calls, s'.senders, |s'.handed|)
  {
    SerialiseCovers(s.calls, s.senders, i, |s.handed|);
  }

  /** Outside batch mode a call has one message. */
  ghost predicate Sized(s: State) {
    !s.batchMode ==>
      && (forall k :: 0 <= k < |s.calls| ==> |s.calls[k]| == 1)
      && forall i :: 0 <= i < |s.senders| && s.senders[i].Calling? && s.senders[i].todo != [] ==>
        |s.senders[i].todo| == 1 && s.senders[i].done == []
  }

  lemma StepKeepsSizes(s: State, a: Step)
    requires Enabled(s, a) && BatchesOk(s) && Sized(s)
    ensures Sized(Next(s, a))
  {
  }

  ghost predicate CallsOk(s: State) {
    BatchesOk(s) && Sized(s) && Covered(s.calls, s.senders, |s.handed|)
  }

  lemma StepKeepsCalls(s: State, a: Step)
    requires Enabled(s, a) && CallsOk(s)
    ensures CallsOk(Next(s, a))
  {
    BatchesStep(s, a);
    StepKeepsSizes(s, a);
    if a.Serialise? {
      SerialiseCovered(s, a.i);
    } else {
      OtherStepsKeepOpen(s, a);
    }
  }

  lemma {:induction false} RunKeepsCalls(s: State, run: seq<Step>)
    requires CanRun(s, run) && CallsOk(s)
    ensures CallsOk(After(s, run))
    decreases |run|
  {
    if run != [] {
      StepKeepsCalls(s, run[0]);
      RunKeepsCalls(Next(s, run[0]), run[1..]);
    }
  }

  lemma ReachableCalls(s: State)
    requires Reachable(s)
    ensures CallsOk(s)
  {
    var n: nat, b, run :| CanRun(Start(n, b), run) && After(Start(n, b), run) == s;
    TotalOfNothing<nat>(OpenParts(Start(n, b).senders));
    assert Iota(0) == [];
    RunKeepsCalls(Start(n, b), run);
  }

  predicate NoneOpen(ps: seq<Sender>) {
    forall i :: 0 <= i < |ps| ==> OpenBy(ps[i]) == []
  }

  /** Each serialised message is in at most one complete call, once, and in
      exactly one when no call is being serialised; outside batch mode a call is one
      message. */
  lemma CallsPartitionTheHistory(s: State, x: nat)
    requires Reachable(s)
    ensures Total<nat>(s.calls)[x] <= if x < |s.handed| then 1 else 0
    ensures x < |s.handed| && NoneOpen(s.senders) ==> Total<nat>(s.calls)[x] == 1
    ensures !s.batchMode ==> forall k :: 0 <= k < |s.calls| ==> |s.calls[k]| == 1
  {
    ReachableCalls(s);
    IotaOnce(|s.handed|, x);
    if NoneOpen(s.senders) {
      TotalOfNothing<nat>(OpenParts(s.senders));
    }
  }

  lemma {:induction false} IotaOnce(n: nat, x: nat)
    ensures multiset(Iota(n))[x] == if x < n then 1 else 0
  {
    if n > 0 {
      IotaOnce(n - 1, x);
      PlacesOneMore(n - 1);
    } else {
      assert Iota(0) == [];
    }
  }
}
