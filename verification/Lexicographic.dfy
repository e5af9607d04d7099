/** The lexicographic order on lists of numbers, and lists that increase in it.
    It orders the places in a syntax tree and the strings of Go. */
module Lexicographic {

  type Path = seq<nat>

  predicate Before(p: Path, q: Path)
    decreases |p|
  {
    q != [] && (p == [] || p[0] < q[0] || (p[0] == q[0] && Before(p[1..], q[1..])))
  }

  /** p and q agree up to k, and there p ends or has the smaller number. */
  predicate PartsAt(p: Path, q: Path, k: nat) {
    k <= |p| && k < |q| && p[..k] == q[..k] && (k == |p| || p[k] < q[k])
  }

  lemma {:induction false} BeforeIfParts(p: Path, q: Path, k: nat)
    requires PartsAt(p, q, k)
    ensures Before(p, q)
    decreases k
  {
    if k > 0 {
      assert p[0] == p[..k][0] == q[0];
      assert p[1..][..k - 1] == p[..k][1..] == q[..k][1..] == q[1..][..k - 1];
      BeforeIfParts(p[1..], q[1..], k - 1);
    }
  }

  lemma {:induction false} BeforeParts(p: Path, q: Path) returns (k: nat)
    requires Before(p, q)
    ensures PartsAt(p, q, k)
    decreases |p|
  {
    if p == [] || p[0] < q[0] {
      k := 0;
    } else {
      var j := BeforeParts(p[1..], q[1..]);
      k := j + 1;
      assert p[..k] == [p[0]] + p[1..][..j] && q[..k] == [q[0]] + q[1..][..j];
    }
  }

  lemma {:induction false} NeverBeforeItself(p: Path)
    ensures !Before(p, p)
    decreases |p|
  {
    if p != [] {
      NeverBeforeItself(p[1..]);
    }
  }

  lemma {:induction false} BeforeIsTransitive(p: Path, q: Path, r: Path)
    requires Before(p, q) && Before(q, r)
    ensures Before(p, r)
    decreases |p|
  {
    if p != [] && p[0] == q[0] == r[0] {
      BeforeIsTransitive(p[1..], q[1..], r[1..]);
    }
  }

  lemma {:induction false} BeforeIsTotal(p: Path, q: Path)
    ensures Before(p, q) || p == q || Before(q, p)
    decreases |p|
  {
    if p != [] && q != [] && p[0] == q[0] {
      BeforeIsTotal(p[1..], q[1..]);
      assert p == [p[0]] + p[1..] && q == [q[0]] + q[1..];
    }
  }

  /** A parent comes before what is below it. */
  lemma {:induction false} ParentBefore(p: Path, q: Path)
    requires p < q
    ensures Before(p, q)
    decreases |p|
  {
    if p != [] {
      assert p[1..] < q[1..];
      ParentBefore(p[1..], q[1..]);
    }
  }

  /** What is below an earlier sibling comes before what is below a later one. */
  lemma {:induction false} SiblingBefore(p: Path, q: Path, d: nat)
    requires d < |p| && d < |q| && p[..d] == q[..d] && p[d] < q[d]
    ensures Before(p, q)
    decreases d
  {
    if d > 0 {
      assert p[0] == p[..d][0] == q[0];
      assert p[1..][..d - 1] == p[..d][1..] == q[..d][1..] == q[1..][..d - 1];
      SiblingBefore(p[1..], q[1..], d - 1);
    }
  }

  ghost predicate Increasing(ps: seq<Path>) {
    forall i, j :: 0 <= i < j < |ps| ==> Before(ps[i], ps[j])
  }

  lemma LastIsGreatest(ps: seq<Path>, p: Path)
    requires Increasing(ps) && ps != [] && p in ps
    ensures p == ps[|ps| - 1] || Before(p, ps[|ps| - 1])
  {
  }

  lemma FrontMembers(ps: seq<Path>, p: Path)
    requires Increasing(ps) && ps != []
    ensures p in ps[..|ps| - 1] <==> p in ps && p != ps[|ps| - 1]
  {
    var n := |ps| - 1;
    assert ps == ps[..n] + [ps[n]];
    NeverBeforeItself(ps[n]);
  }

  lemma EmptyTogether(ps: seq<Path>, qs: seq<Path>)
    requires forall p :: p in ps <==> p in qs
    ensures ps == [] <==> qs == []
  {
    if ps != [] {
      assert ps[0] in qs;
    }
    if qs != [] {
      assert qs[0] in ps;
    }
  }

  /** An increasing list is determined by its members. */
  lemma {:induction false} IncreasingIsDetermined(ps: seq<Path>, qs: seq<Path>)
    requires Increasing(ps) && Increasing(qs)
    requires forall p :: p in ps <==> p in qs
    ensures ps == qs
  {
    EmptyTogether(ps, qs);
    if ps != [] && qs != [] {
      var m, n := |ps| - 1, |qs| - 1;
      SameLast(ps, qs);
      forall p ensures p in ps[..m] <==> p in qs[..n] {
        FrontMembers(ps, p);
        FrontMembers(qs, p);
      }
      IncreasingIsDetermined(ps[..m], qs[..n]);
      assert ps == ps[..m] + [ps[m]] && qs == qs[..n] + [qs[n]];
    }
  }

  lemma SameLast(ps: seq<Path>, qs: seq<Path>)
    requires Increasing(ps) && Increasing(qs) && ps != [] && qs != []
    requires forall p :: p in ps <==> p in qs
    ensures ps[|ps| - 1] == qs[|qs| - 1]
  {
    var p, q := ps[|ps| - 1], qs[|qs| - 1];
    assert p in ps && q in qs;
    LastIsGreatest(ps, q);
    LastIsGreatest(qs, p);
    if p != q {
      BeforeIsTransitive(p, q, p);
      NeverBeforeItself(p);
    }
  }
}
