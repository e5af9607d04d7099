/** The generator of Reset methods: which types it finds, and the lists it
    writes for each directory. */
module ResetGen {
  import opened Lexicographic
  import opened Lists
  import opened GoAst

  // ---------------------------------------------------------------- strings

  predicate OccursAt(s: string, sub: string, i: int) {
    0 <= i <= |s| - |sub| && s[i..i + |sub|] == sub
  }

  /** strings.Contains */
  predicate Contains(s: string, sub: string) {
    exists i :: 0 <= i <= |s| && OccursAt(s, sub, i)
  }

  /** That is, sub stands somewhere in s. */
  lemma ContainsMeans(s: string, sub: string)
    ensures Contains(s, sub) <==> exists before, after :: s == before + sub + after
  {
    if Contains(s, sub) {
      var i :| 0 <= i <= |s| && OccursAt(s, sub, i);
      assert s == s[..i] + sub + s[i + |sub|..];
    }
    if before, after :| s == before + sub + after {
      assert s[|before|..|before| + |sub|] == sub;
      assert OccursAt(s, sub, |before|);
    }
  }

  predicate HasPrefix(s: string, prefix: string) {
    |prefix| <= |s| && s[..|prefix|] == prefix
  }

  predicate HasSuffix(s: string, suffix: string) {
    |suffix| <= |s| && s[|s| - |suffix|..] == suffix
  }

  function TrimPrefix(s: string, prefix: string): string {
    if HasPrefix(s, prefix) then s[|prefix|..] else s
  }

  function TrimSuffix(s: string, suffix: string): string {
    if HasSuffix(s, suffix) then s[..|s| - |suffix|] else s
  }

  /** The white space of Unicode. */
  predicate IsSpace(c: char) {
    var k := c as int;
    || 9 <= k <= 13 || k == 32 || k == 0x85 || k == 0xA0 || k == 0x1680
    || 0x2000 <= k <= 0x200A || k == 0x2028 || k == 0x2029 || k == 0x202F || k == 0x205F || k == 0x3000
  }

  /** How much white space s starts with. */
  function Leading(s: string): (k: nat)
    ensures k <= |s| && forall i :: 0 <= i < k ==> IsSpace(s[i])
  {
    if s == [] || !IsSpace(s[0]) then 0 else 1 + Leading(s[1..])
  }

  /** Where the white space at the end of s starts. */
  function Ending(s: string): (k: nat)
    ensures k <= |s| && forall i :: k <= i < |s| ==> IsSpace(s[i])
  {
    if s == [] || !IsSpace(s[|s| - 1]) then |s| else Ending(s[..|s| - 1])
  }

  /** strings.TrimSpace */
  function TrimSpace(s: string): string {
    var t := s[Leading(s)..];
    t[..Ending(t)]
  }

  // ---------------------------------------------------------------- the marker

  const MARKER := "generate:reset"

  function Stripped(comment: string): string {
    var txt := TrimSpace(TrimPrefix(comment, "//"));
    TrimSpace(TrimSuffix(TrimPrefix(txt, "/*"), "*/"))
  }

  ghost predicate Marked(doc: Doc) {
    doc.Some? && exists i :: 0 <= i < |doc.value| && Contains(doc.value[i], MARKER)
  }

  lemma CutFront(s: string, sub: string, k: nat)
    requires k <= |s| && sub != [] && forall i :: 0 <= i < k ==> s[i] !in sub
    ensures Contains(s[k..], sub) <==> Contains(s, sub)
  {
    if Contains(s, sub) {
      var i :| 0 <= i <= |s| && OccursAt(s, sub, i);
      assert s[i] == s[i..i + |sub|][0];
      assert s[k..][i - k..i - k + |sub|] == s[i..i + |sub|];
      assert OccursAt(s[k..], sub, i - k);
    }
    if Contains(s[k..], sub) {
      var i :| 0 <= i <= |s| - k && OccursAt(s[k..], sub, i);
      assert s[k + i..k + i + |sub|] == s[k..][i..i + |sub|];
      assert OccursAt(s, sub, k + i);
    }
  }

  lemma CutBack(s: string, sub: string, k: nat)
    requires k <= |s| && sub != [] && forall i :: k <= i < |s| ==> s[i] !in sub
    ensures Contains(s[..k], sub) <==> Contains(s, sub)
  {
    if Contains(s, sub) {
      var i :| 0 <= i <= |s| && OccursAt(s, sub, i);
      assert s[i + |sub| - 1] == s[i..i + |sub|][|sub| - 1];
      assert s[..k][i..i + |sub|] == s[i..i + |sub|];
      assert OccursAt(s[..k], sub, i);
    }
    if Contains(s[..k], sub) {
      var i :| 0 <= i <= k && OccursAt(s[..k], sub, i);
      assert s[i..i + |sub|] == s[..k][i..i + |sub|];
      assert OccursAt(s, sub, i);
    }
  }

  lemma MarkerIsPlain(c: char)
    requires IsSpace(c) || c == '/' || c == '*'
    ensures c !in MARKER
  {
  }

  lemma TrimKeepsMarker(s: string)
    ensures Contains(TrimSpace(s), MARKER) <==> Contains(s, MARKER)
  {
    forall c | IsSpace(c) ensures c !in MARKER {
      MarkerIsPlain(c);
    }
    var t := s[Leading(s)..];
    CutFront(s, MARKER, Leading(s));
    CutBack(t, MARKER, Ending(t));
  }

  lemma PrefixKeepsMarker(s: string, prefix: string)
    requires forall c :: c in prefix ==> c == '/' || c == '*'
    ensures Contains(TrimPrefix(s, prefix), MARKER) <==> Contains(s, MARKER)
  {
    if HasPrefix(s, prefix) {
      forall i | 0 <= i < |prefix| ensures s[i] !in MARKER {
        assert s[i] == s[..|prefix|][i] == prefix[i] && prefix[i] in prefix;
        MarkerIsPlain(s[i]);
      }
      CutFront(s, MARKER, |prefix|);
    }
  }

  lemma SuffixKeepsMarker(s: string, suffix: string)
    requires forall c :: c in suffix ==> c == '/' || c == '*'
    ensures Contains(TrimSuffix(s, suffix), MARKER) <==> Contains(s, MARKER)
  {
    if HasSuffix(s, suffix) {
      var k := |s| - |suffix|;
      forall i | k <= i < |s| ensures s[i] !in MARKER {
        assert s[i] == s[k..][i - k] == suffix[i - k] && suffix[i - k] in suffix;
        MarkerIsPlain(s[i]);
      }
      CutBack(s, MARKER, k);
    }
  }

  /** Stripping comment signs and white space neither hides nor makes a marker. */
  lemma StrippingKeepsMarker(comment: string)
    ensures Contains(Stripped(comment), MARKER) <==> Contains(comment, MARKER)
  {
    PrefixKeepsMarker(comment, "//");
    TrimKeepsMarker(TrimPrefix(comment, "//"));
    var txt := TrimSpace(TrimPrefix(comment, "//"));
    PrefixKeepsMarker(txt, "/*");
    SuffixKeepsMarker(TrimPrefix(txt, "/*"), "*/");
    TrimKeepsMarker(TrimSuffix(TrimPrefix(txt, "/*"), "*/"));
  }

  /** True exactly when some comment of the group has the marker. */
  method HasMarker(cg: Doc) returns (found: bool)
    ensures found <==> Marked(cg)
  {
    if cg.None? {
      return false;
    }
    for i := 0 to |cg.value|
      invariant forall j :: 0 <= j < i ==> !Contains(cg.value[j], MARKER)
    {
      StrippingKeepsMarker(cg.value[i]);
      if Contains(Stripped(cg.value[i]), MARKER) {
        return true;
      }
    }
    return false;
  }

  // ---------------------------------------------------------------- collecting

  /** A type specification that gets a Reset method. */
  ghost predicate Wanted(spec: Node, genDoc: Doc) {
    && spec.TypeSpec? && spec.typ.StructType? && spec.typeParams == []
    && (Marked(genDoc) || Marked(spec.doc))
  }

  ghost function FromSpecs(specs: seq<Node>, genDoc: Doc): seq<string> {
    if specs == [] then []
    else
      var n := |specs| - 1;
      FromSpecs(specs[..n], genDoc) + if Wanted(specs[n], genDoc) then [specs[n].name] else []
  }

  ghost function FromNode(n: Node): seq<string> {
    if n.GenDecl? && n.isType then FromSpecs(n.specs, n.doc) else []
  }

  ghost function FromSpots(spots: seq<Spot>): seq<string> {
    if spots == [] then [] else FromSpots(spots[..|spots| - 1]) + FromNode(spots[|spots| - 1].node)
  }

  lemma {:induction false} FromSpotsConcat(a: seq<Spot>, b: seq<Spot>)
    ensures FromSpots(a + b) == FromSpots(a) + FromSpots(b)
  {
    if b == [] {
      assert a + b == a;
    } else {
      var n := |b| - 1;
      assert (a + b)[..|a + b| - 1] == a + b[..n];
      FromSpotsConcat(a, b[..n]);
      Regroup(FromSpots(a), FromSpots(b[..n]), FromNode(b[n].node));
    }
  }

  lemma FromSpotsJoin(before: seq<string>, all: seq<Spot>, a: seq<Spot>, b: seq<Spot>)
    requires all == a + b
    ensures before + FromSpots(all) == before + FromSpots(a) + FromSpots(b)
  {
    FromSpotsConcat(a, b);
  }

  lemma OneSpot(s: Spot)
    ensures FromSpots([s]) == FromNode(s.node)
  {
    assert [s][..0] == [];
  }

  lemma SpecsOneMore(before: seq<string>, specs: seq<Node>, i: nat, genDoc: Doc)
    requires i < |specs|
    ensures before + FromSpecs(specs[..i + 1], genDoc)
         == before + FromSpecs(specs[..i], genDoc) + if Wanted(specs[i], genDoc) then [specs[i].name] else []
  {
    assert specs[..i + 1][..i] == specs[..i];
  }

  class Targets {
    var names: seq<string>

    constructor ()
      ensures names == []
    {
      names := [];
    }

    /** The visitor. It always asks to descend. */
    method Visit(n: Node) returns (descend: bool)
      modifies this
      ensures descend
      ensures names == old(names) + FromNode(n)
    {
      if !n.GenDecl? || !n.isType {
        return true;
      }
      for i := 0 to |n.specs|
        invariant names == old(names) + FromSpecs(n.specs[..i], n.doc)
      {
        var ts := n.specs[i];
        SpecsOneMore(old(names), n.specs, i, n.doc);
        if !ts.TypeSpec? || !ts.typ.StructType? || |ts.typeParams| > 0 {
          continue;
        }
        var onGroup := HasMarker(n.doc);
        var onType := HasMarker(ts.doc);
        if !onGroup && !onType {
          continue;
        }
        names := names + [ts.name];
      }
      assert n.specs[..|n.specs|] == n.specs;
      return true;
    }

    /** ast.Inspect with the visitor: the children of a node are walked only if
        the visitor asks for it. */
    method Inspect(n: Node, here: Path)
      modifies this
      ensures names == old(names) + FromSpots(Walk(n, here))
      decreases Size(n), 0
    {
      SizeOfChildren(n);
      FromSpotsJoin(names, Walk(n, here), [Spot(here, n)], WalkAll(Children(n), here));
      OneSpot(Spot(here, n));
      var descend := Visit(n);
      if descend {
        InspectAll(Children(n), here);
      }
    }

    method InspectAll(ns: seq<Node>, here: Path)
      modifies this
      ensures names == old(names) + FromSpots(WalkAll(ns, here))
      decreases SizeAll(ns), 1
    {
      for i := 0 to |ns|
        invariant names == old(names) + FromSpots(WalkAll(ns[..i], here))
      {
        SizeOfMember(ns, i);
        OneMoreFile(old(names), ns, i, here);
        Inspect(ns[i], here + [i]);
      }
      assert ns[..|ns|] == ns;
    }
  }

  lemma OneMoreFile(before: seq<string>, ns: seq<Node>, i: nat, here: Path)
    requires i < |ns|
    ensures before + FromSpots(WalkAll(ns[..i + 1], here))
         == before + FromSpots(WalkAll(ns[..i], here)) + FromSpots(Walk(ns[i], here + [i]))
  {
    assert ns[..i + 1][..i] == ns[..i];
    FromSpotsJoin(before, WalkAll(ns[..i + 1], here), WalkAll(ns[..i], here), Walk(ns[i], here + [i]));
  }

  // ---------------------------------------------------------------- sorting

  function Codes(s: string): (p: Path)
    ensures |p| == |s| && forall i :: 0 <= i < |s| ==> p[i] == s[i] as int
  {
    seq(|s|, i requires 0 <= i < |s| => s[i] as int)
  }

  lemma CodesAreInjective(a: string, b: string)
    requires Codes(a) == Codes(b)
    ensures a == b
  {
    forall i | 0 <= i < |a| ensures a[i] == b[i] {
      assert Codes(a)[i] == Codes(b)[i];
    }
  }

  /** The order of Go strings. */
  predicate Less(a: string, b: string) {
    Before(Codes(a), Codes(b))
  }

  /** By the first character that differs; a string comes before its extensions. */
  lemma LessMeans(a: string, b: string)
    ensures Less(a, b) <==>
      exists k :: 0 <= k <= |a| && k < |b| && a[..k] == b[..k] && (k == |a| || a[k] < b[k])
  {
    if Less(a, b) {
      var k := BeforeParts(Codes(a), Codes(b));
      forall i | 0 <= i < k ensures a[..k][i] == b[..k][i] {
        assert Codes(a)[..k][i] == Codes(b)[..k][i];
      }
      assert a[..k] == b[..k];
    }
    if k :| 0 <= k <= |a| && k < |b| && a[..k] == b[..k] && (k == |a| || a[k] < b[k]) {
      assert forall i :: 0 <= i < k ==> a[..k][i] == b[..k][i];
      assert Codes(a)[..k] == Codes(b)[..k];
      BeforeIfParts(Codes(a), Codes(b), k);
    }
  }

  lemma LessIsTotal(a: string, b: string)
    ensures Less(a, b) || a == b || Less(b, a)
  {
    BeforeIsTotal(Codes(a), Codes(b));
    if Codes(a) == Codes(b) {
      CodesAreInjective(a, b);
    }
  }

  lemma LessIsTransitive(a: string, b: string, c: string)
    requires Less(a, b) && Less(b, c)
    ensures Less(a, c)
  {
    BeforeIsTransitive(Codes(a), Codes(b), Codes(c));
  }

  /** Nothing comes before an earlier name. */
  ghost predicate Sorted(s: seq<string>) {
    forall i, j :: 0 <= i < j < |s| ==> s[i] == s[j] || Less(s[i], s[j])
  }

  function Insert(s: seq<string>, x: string): seq<string> {
    if s == [] || !Less(x, s[|s| - 1]) then s + [x] else Insert(s[..|s| - 1], x) + [s[|s| - 1]]
  }

  /** sort.Slice and sort.Strings: the only sorted arrangement. */
  function SortedNames(s: seq<string>): seq<string> {
    if s == [] then [] else Insert(SortedNames(s[..|s| - 1]), s[|s| - 1])
  }

  lemma {:induction false} InsertMembers(s: seq<string>, x: string)
    ensures multiset(Insert(s, x)) == multiset(s) + multiset{x}
  {
    if s != [] && Less(x, s[|s| - 1]) {
      InsertMembers(s[..|s| - 1], x);
      LastOfMultiset(s);
    }
  }

  lemma SortedOneMore(s: seq<string>, x: string)
    requires Sorted(s) && (s != [] ==> s[|s| - 1] == x || Less(s[|s| - 1], x))
    ensures Sorted(s + [x])
  {
    forall i | 0 <= i < |s| ensures s[i] == x || Less(s[i], x) {
      var last := s[|s| - 1];
      assert s[i] == last || Less(s[i], last);
      if Less(s[i], last) && Less(last, x) {
        LessIsTransitive(s[i], last, x);
      }
    }
  }

  lemma {:induction false} InsertKeepsSorted(s: seq<string>, x: string)
    requires Sorted(s)
    ensures Sorted(Insert(s, x))
  {
    if s != [] && Less(x, s[|s| - 1]) {
      var front, last := s[..|s| - 1], s[|s| - 1];
      InsertKeepsSorted(front, x);
      InsertMembers(front, x);
      var r := Insert(front, x);
      if r != [] {
        assert r[|r| - 1] in multiset(r);
      }
      SortedOneMore(r, last);
    } else {
      if s != [] {
        LessIsTotal(s[|s| - 1], x);
      }
      SortedOneMore(s, x);
    }
  }

  /** Sorting arranges the same names in order. */
  lemma {:induction false} Sorts(s: seq<string>)
    ensures Sorted(SortedNames(s)) && multiset(SortedNames(s)) == multiset(s)
  {
    if s != [] {
      Sorts(s[..|s| - 1]);
      InsertKeepsSorted(SortedNames(s[..|s| - 1]), s[|s| - 1]);
      InsertMembers(SortedNames(s[..|s| - 1]), s[|s| - 1]);
      LastOfMultiset(s);
    }
  }

  lemma SortKeepsMembers(s: seq<string>, x: string)
    ensures x in SortedNames(s) <==> x in s
  {
    Sorts(s);
    assert x in multiset(SortedNames(s)) <==> x in multiset(s);
  }

  method SortInPlace(a: array<string>)
    modifies a
    ensures a[..] == SortedNames(old(a[..]))
  {
    Sorts(a[..]);
    var s := SortedNames(a[..]);
    assert |s| == |multiset(s)| == |multiset(a[..])| == a.Length;
    forall i | 0 <= i < a.Length {
      a[i] := s[i];
    }
  }

  // ---------------------------------------------------------------- dedup

  function Last(s: seq<string>): string {
    if s == [] then "" else s[|s| - 1]
  }

  /** Drops what equals the name before it, starting from the empty name. */
  function Squeezed(s: seq<string>): seq<string> {
    if s == [] then []
    else
      var front, x := Squeezed(s[..|s| - 1]), s[|s| - 1];
      if x == Last(front) then front else front + [x]
  }

  function Dedup(names: seq<string>): seq<string> {
    Squeezed(SortedNames(names))
  }

  method DedupTargets(targets: array<string>) returns (out: seq<string>)
    modifies targets
    ensures targets[..] == SortedNames(old(targets[..]))
    ensures out == Dedup(old(targets[..]))
  {
    if targets.Length == 0 {
      return [];
    }
    SortInPlace(targets);
    out := [];
    var prev := "";
    for i := 0 to targets.Length
      invariant targets[..] == SortedNames(old(targets[..]))
      invariant out == Squeezed(targets[..][..i]) && prev == Last(out)
    {
      var t := targets[i];
      assert targets[..][..i + 1][..i] == targets[..][..i];
      if t == prev {
        continue;
      }
      out := out + [t];
      prev := t;
    }
    assert targets[..][..targets.Length] == targets[..];
  }

  ghost predicate StrictlyIncreasing(s: seq<string>) {
    forall i, j :: 0 <= i < j < |s| ==> Less(s[i], s[j])
  }

  lemma NothingBeforeEmpty(x: string)
    ensures !Less(x, "")
  {
  }

  lemma SqueezedLast(s: seq<string>)
    requires s != []
    ensures Last(Squeezed(s)) == s[|s| - 1]
  {
  }

  lemma {:induction false} SqueezedMembers(s: seq<string>, x: string)
    requires Sorted(s)
    ensures x in Squeezed(s) <==> x in s && x != ""
  {
    if s != [] {
      var front, last := s[..|s| - 1], s[|s| - 1];
      SqueezedMembers(front, x);
      assert s == front + [last];
      if front != [] {
        SqueezedLast(front);
        NothingBeforeEmpty(front[|front| - 1]);
      }
    }
  }

  lemma NewNameIsGreater(front: seq<string>, last: string, k: nat)
    requires Sorted(front + [last]) && k < |front| && last != front[|front| - 1]
    ensures Less(front[k], last)
  {
    var s := front + [last];
    var n := |front| - 1;
    assert s[k] == front[k] && s[n] == front[n] && s[n + 1] == last;
    if k < n {
      assert s[k] == s[n] || Less(s[k], s[n]);
      if s[k] != s[n] {
        LessIsTransitive(s[k], s[n], last);
      }
    }
  }

  lemma {:induction false} SqueezedIncreases(s: seq<string>)
    requires Sorted(s)
    ensures StrictlyIncreasing(Squeezed(s))
  {
    if s != [] {
      var front, last := s[..|s| - 1], s[|s| - 1];
      assert s == front + [last];
      SqueezedIncreases(front);
      var out := Squeezed(front);
      if last != Last(out) {
        forall i | 0 <= i < |out| ensures Less(out[i], last) {
          SqueezedMembers(front, out[i]);
          SqueezedLast(front);
          var k :| 0 <= k < |front| && front[k] == out[i];
          NewNameIsGreater(front, last, k);
        }
      }
    }
  }

  /** The list of a directory: each name once, in increasing order, but for an
      empty one. */
  lemma DedupIsCanonical(names: seq<string>)
    ensures StrictlyIncreasing(Dedup(names))
    ensures forall x :: x in Dedup(names) <==> x in names && x != ""
  {
    Sorts(names);
    SqueezedIncreases(SortedNames(names));
    forall x ensures x in Dedup(names) <==> x in names && x != "" {
      SqueezedMembers(SortedNames(names), x);
      SortKeepsMembers(names, x);
    }
  }
}
