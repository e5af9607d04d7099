/** What a sequence of updates does to the two maps of the server. */
module Updates {
  import opened Numbers
  import opened Lists

  datatype Update =
    | SetGauge(name: string, value: Float64)
    | AddCounter(name: string, delta: Int64)

  datatype Store = Store(gauges: map<string, Float64>, counters: map<string, Int64>)

  const EMPTY: Store := Store(map[], map[])

  /** Reading a missing key of a Go map gives zero. */
  function CounterOf(s: Store, n: string): Int64 {
    if n in s.counters then s.counters[n] else 0
  }

  function Apply(s: Store, u: Update): Store {
    match u
    case SetGauge(n, v) => s.(gauges := s.gauges[n := v])
    case AddCounter(n, d) => s.(counters := s.counters[n := Wrap64(CounterOf(s, n) + d)])
  }

  /** The store after all of us, in order. */
  function Replay(s: Store, us: seq<Update>): Store {
    if us == [] then s else Apply(Replay(s, us[..|us| - 1]), us[|us| - 1])
  }

  lemma {:induction false} ReplayConcat(s: Store, us: seq<Update>, vs: seq<Update>)
    ensures Replay(s, us + vs) == Replay(Replay(s, us), vs)
  {
    if vs == [] {
      assert us + vs == us;
    } else {
      var n := |vs| - 1;
      assert (us + vs)[..|us + vs| - 1] == us + vs[..n];
      ReplayConcat(s, us, vs[..n]);
    }
  }

  lemma ReplayOne(s: Store, us: seq<Update>, u: Update)
    ensures Replay(s, us + [u]) == Apply(Replay(s, us), u)
  {
    assert (us + [u])[..|us|] == us;
  }

  // ---------------------------------------------------------------- counters

  function DeltaOf(u: Update, n: string): int {
    if u.AddCounter? && u.name == n then u.delta else 0
  }

  /** The exact, unbounded sum of the deltas for n. */
  function DeltaSum(us: seq<Update>, n: string): int {
    if us == [] then 0 else DeltaSum(us[..|us| - 1], n) + DeltaOf(us[|us| - 1], n)
  }

  ghost predicate Counts(us: seq<Update>, n: string) {
    exists i :: 0 <= i < |us| && us[i].AddCounter? && us[i].name == n
  }

  lemma CountsOneMore(us: seq<Update>, u: Update, n: string)
    ensures Counts(us + [u], n) <==> Counts(us, n) || (u.AddCounter? && u.name == n)
  {
    assert (us + [u])[|us|] == u;
    assert forall i :: 0 <= i < |us| ==> (us + [u])[i] == us[i];
  }

  lemma CounterStep(s: Store, u: Update, n: string)
    ensures n in Apply(s, u).counters <==> n in s.counters || (u.AddCounter? && u.name == n)
    ensures CounterOf(Apply(s, u), n) == Wrap64(CounterOf(s, n) + DeltaOf(u, n))
  {
    WrapInRange(CounterOf(s, n));
  }

  /** A counter is the wrapped sum, whatever overflows on the way. */
  lemma {:induction false} CounterFold(s: Store, us: seq<Update>, n: string)
    ensures n in Replay(s, us).counters <==> n in s.counters || Counts(us, n)
    ensures CounterOf(Replay(s, us), n) == Wrap64(CounterOf(s, n) + DeltaSum(us, n))
  {
    if us == [] {
      WrapInRange(CounterOf(s, n));
    } else {
      var front, u := us[..|us| - 1], us[|us| - 1];
      CounterFold(s, front, n);
      CounterStep(Replay(s, front), u, n);
      CountsOneMore(front, u, n);
      assert us == front + [u];
      WrapAbsorbs(CounterOf(s, n) + DeltaSum(front, n), DeltaOf(u, n));
    }
  }

  /** Exact when the final sum fits, even if a partial sum did not. */
  lemma CounterExact(s: Store, us: seq<Update>, n: string)
    ensures CounterOf(Replay(s, us), n) == CounterOf(s, n) + DeltaSum(us, n)
       <==> -TWO_63 <= CounterOf(s, n) + DeltaSum(us, n) < TWO_63
  {
    CounterFold(s, us, n);
    WrapInRange(CounterOf(s, n) + DeltaSum(us, n));
  }

  lemma {:induction false} DeltaSumConcat(us: seq<Update>, vs: seq<Update>, n: string)
    ensures DeltaSum(us + vs, n) == DeltaSum(us, n) + DeltaSum(vs, n)
  {
    if vs == [] {
      assert us + vs == us;
    } else {
      assert (us + vs)[..|us + vs| - 1] == us + vs[..|vs| - 1];
      DeltaSumConcat(us, vs[..|vs| - 1], n);
    }
  }

  lemma DeltaSumWithout(us: seq<Update>, i: nat, n: string)
    requires i < |us|
    ensures DeltaSum(us, n) == DeltaSum(Without(us, i), n) + DeltaOf(us[i], n)
  {
    assert us == us[..i] + ([us[i]] + us[i + 1..]);
    DeltaSumConcat(us[..i], [us[i]] + us[i + 1..], n);
    DeltaSumConcat([us[i]], us[i + 1..], n);
    DeltaSumConcat(us[..i], us[i + 1..], n);
    assert [us[i]][..0] == [];
  }

  lemma {:induction false} DeltaSumPermutes(us: seq<Update>, vs: seq<Update>, n: string)
    requires multiset(us) == multiset(vs)
    ensures DeltaSum(us, n) == DeltaSum(vs, n)
  {
    if us == [] {
      assert |vs| == |multiset(vs)| == 0;
    } else {
      assert us[0] in multiset(vs);
      var i :| 0 <= i < |vs| && vs[i] == us[0];
      WithoutAsMultiset(us, 0);
      WithoutAsMultiset(vs, i);
      assert multiset(Without(us, 0)) == multiset(us) - multiset{us[0]};
      assert multiset(Without(vs, i)) == multiset(vs) - multiset{us[0]};
      DeltaSumPermutes(Without(us, 0), Without(vs, i), n);
      DeltaSumWithout(us, 0, n);
      DeltaSumWithout(vs, i, n);
    }
  }

  lemma CountsPermutes(us: seq<Update>, vs: seq<Update>, n: string)
    requires multiset(us) == multiset(vs)
    requires Counts(us, n)
    ensures Counts(vs, n)
  {
    var i :| 0 <= i < |us| && us[i].AddCounter? && us[i].name == n;
    assert us[i] in multiset(vs);
  }

  /** The counters do not depend on the order of the updates. */
  lemma CountersOrderFree(s: Store, us: seq<Update>, vs: seq<Update>)
    requires multiset(us) == multiset(vs)
    ensures Replay(s, us).counters == Replay(s, vs).counters
  {
    var a, b := Replay(s, us), Replay(s, vs);
    forall n
      ensures n in a.counters <==> n in b.counters
      ensures n in a.counters ==> a.counters[n] == b.counters[n]
    {
      CounterFold(s, us, n);
      CounterFold(s, vs, n);
      DeltaSumPermutes(us, vs, n);
      if Counts(us, n) { CountsPermutes(us, vs, n); }
      if Counts(vs, n) { CountsPermutes(vs, us, n); }
    }
  }

  // ---------------------------------------------------------------- gauges

  /** us[i] is the last write of gauge n. */
  ghost predicate LastWrite(us: seq<Update>, n: string, i: int) {
    && 0 <= i < |us|
    && us[i].SetGauge? && us[i].name == n
    && forall j :: i < j < |us| ==> !(us[j].SetGauge? && us[j].name == n)
  }

  ghost predicate Writes(us: seq<Update>, n: string) {
    exists i :: 0 <= i < |us| && us[i].SetGauge? && us[i].name == n
  }

  /** The index of the last write of n, or -1. */
  function LastIndex(us: seq<Update>, n: string): (r: int)
    ensures r == -1 <==> !Writes(us, n)
    ensures r != -1 <==> LastWrite(us, n, r)
  {
    if us == [] then -1
    else
      var last := |us| - 1;
      if us[last].SetGauge? && us[last].name == n then last
      else
        assert us == us[..last] + [us[last]];
        LastIndex(us[..last], n)
  }

  /** A gauge is its last write, and its old value when there is none. */
  lemma {:induction false} GaugeIsLastWrite(s: Store, us: seq<Update>, n: string)
    ensures n in Replay(s, us).gauges <==> n in s.gauges || Writes(us, n)
    ensures Writes(us, n) ==> Replay(s, us).gauges[n] == us[LastIndex(us, n)].value
    ensures n in s.gauges && !Writes(us, n) ==> Replay(s, us).gauges[n] == s.gauges[n]
  {
    if us != [] {
      GaugeIsLastWrite(s, us[..|us| - 1], n);
      assert Writes(us[..|us| - 1], n) ==> us[LastIndex(us[..|us| - 1], n)].SetGauge?;
    }
  }
}
