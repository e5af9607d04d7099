/** Facts about lists of anything. */
module Lists {

  lemma Regroup<T>(x: seq<T>, y: seq<T>, z: seq<T>)
    ensures x + y + z == x + (y + z)
  {
  }

  lemma LastOfMultiset<T>(xs: seq<T>)
    requires xs != []
    ensures multiset(xs) == multiset(xs[..|xs| - 1]) + multiset{xs[|xs| - 1]}
  {
    assert xs == xs[..|xs| - 1] + [xs[|xs| - 1]];
  }

  lemma FirstOfMultiset<T>(xs: seq<T>)
    requires xs != []
    ensures multiset(xs) == multiset{xs[0]} + multiset(xs[1..])
  {
    assert xs == [xs[0]] + xs[1..];
  }

  lemma TwiceIsTwo<T>(xs: seq<T>, i: nat, j: nat)
    requires i < j < |xs| && xs[i] == xs[j]
    ensures multiset(xs)[xs[i]] >= 2
  {
    assert xs == xs[..j] + xs[j..];
    assert xs[i] in xs[..j] && xs[j] in xs[j..];
  }

  lemma TakeOneMore<T>(xs: seq<T>, i: nat)
    requires i < |xs|
    ensures xs[..i] + [xs[i]] == xs[..i + 1]
  {
  }

  function Without<T>(xs: seq<T>, i: nat): seq<T>
    requires i < |xs|
  {
    xs[..i] + xs[i + 1..]
  }

  lemma WithoutAsMultiset<T>(xs: seq<T>, i: nat)
    requires i < |xs|
    ensures multiset(xs) == multiset(Without(xs, i)) + multiset{xs[i]}
  {
    assert xs == xs[..i] + [xs[i]] + xs[i + 1..];
  }

  /** 0, 1, 2 and so on. */
  function Iota(n: nat): (r: seq<nat>)
    ensures |r| == n && forall i :: 0 <= i < n ==> r[i] == i
  {
    seq(n, i => i)
  }

  lemma IotaOneMore(n: nat)
    ensures Iota(n + 1) == Iota(n) + [n]
  {
  }

  lemma OneTimeMore(n: nat, c: nat)
    requires n > 0
    ensures n * c == (n - 1) * c + c
  {
  }

  // ---------------------------------------------------------------- totals

  function Sum(xs: seq<int>): int {
    if xs == [] then 0 else Sum(xs[..|xs| - 1]) + xs[|xs| - 1]
  }

  /** All that is in the parts. */
  function Total<T>(parts: seq<seq<T>>): multiset<T> {
    if parts == [] then multiset{} else Total(parts[..|parts| - 1]) + multiset(parts[|parts| - 1])
  }

  lemma TotalOneMore<T>(parts: seq<seq<T>>, p: seq<T>)
    ensures Total(parts + [p]) == Total(parts) + multiset(p)
  {
    assert (parts + [p])[..|parts|] == parts;
  }

  lemma AddToBoth<T>(x: multiset<T>, y: multiset<T>, b: multiset<T>, p: multiset<T>, l: multiset<T>)
    requires y + b == x + p
    ensures y + l + b == x + l + p
  {
    assert y + l + b == y + b + l;
  }

  lemma Unchanged<T>(h: multiset<T>, h': multiset<T>, x: multiset<T>)
    requires h' + x == h + x
    ensures h' == h
  {
    assert h' + x - x == h';
    assert h + x - x == h;
  }

  /** Changing one part changes the total by as much. */
  lemma {:induction false} TotalPut<T>(parts: seq<seq<T>>, i: nat, p: seq<T>)
    requires i < |parts|
    ensures Total(parts[i := p]) + multiset(parts[i]) == Total(parts) + multiset(p)
  {
    var front, last := parts[..|parts| - 1], parts[|parts| - 1];
    assert parts == front + [last];
    TotalOneMore(front, last);
    if i == |front| {
      assert parts[i := p] == front + [p];
      TotalOneMore(front, p);
    } else {
      assert parts[i := p] == front[i := p] + [last];
      TotalOneMore(front[i := p], last);
      TotalPut(front, i, p);
      AddToBoth(Total(front), Total(front[i := p]), multiset(parts[i]), multiset(p), multiset(last));
    }
  }

  lemma PartOfTotal<T>(parts: seq<seq<T>>, i: nat, x: T)
    requires i < |parts|
    ensures multiset(parts[i])[x] <= Total(parts)[x]
  {
    TotalPut(parts, i, []);
  }

  lemma {:induction false} TwoPartsOfTotal<T>(parts: seq<seq<T>>, i: nat, j: nat, x: T)
    requires i < j < |parts|
    ensures multiset(parts[i])[x] + multiset(parts[j])[x] <= Total(parts)[x]
  {
    var front := parts[..|parts| - 1];
    if j < |front| {
      TwoPartsOfTotal(front, i, j, x);
    } else {
      PartOfTotal(front, i, x);
    }
  }

  lemma {:induction false} TotalOfNothing<T>(parts: seq<seq<T>>)
    requires forall i :: 0 <= i < |parts| ==> parts[i] == []
    ensures Total(parts) == multiset{}
  {
    if parts != [] {
      TotalOfNothing(parts[..|parts| - 1]);
    }
  }
}
