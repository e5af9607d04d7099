/** Go syntax trees as far as the two tools look at them, and the walk of
    ast.Inspect with a visitor that never prunes. */
module GoAst {
  import opened Lexicographic
  import opened Options

  /** The comments of a doc comment group; None is the nil group. */
  type Doc = Option<seq<string>>

  /** A name that is only read by its parent (the selected name, the type's
      name) is a field of the parent, not a child. */
  datatype Node =
    | Ident(name: string)
    | SelectorExpr(x: Node, sel: string)
    | CallExpr(fun: Node, args: seq<Node>)
    | GenDecl(isType: bool, doc: Doc, specs: seq<Node>)
    | TypeSpec(name: string, doc: Doc, typeParams: seq<Node>, typ: Node)
    | StructType(fields: seq<Node>)
    | Other(parts: seq<Node>)

  function Children(n: Node): seq<Node> {
    match n
    case Ident(_) => []
    case SelectorExpr(x, _) => [x]
    case CallExpr(fun, args) => [fun] + args
    case GenDecl(_, _, specs) => specs
    case TypeSpec(_, _, typeParams, typ) => typeParams + [typ]
    case StructType(fields) => fields
    case Other(parts) => parts
  }

  function Size(n: Node): (s: nat)
    ensures s >= 1
    decreases n
  {
    1 + match n
        case Ident(_) => 0
        case SelectorExpr(x, _) => Size(x)
        case CallExpr(fun, args) => Size(fun) + SizeAll(args)
        case GenDecl(_, _, specs) => SizeAll(specs)
        case TypeSpec(_, _, typeParams, typ) => SizeAll(typeParams) + Size(typ)
        case StructType(fields) => SizeAll(fields)
        case Other(parts) => SizeAll(parts)
  }

  function SizeAll(ns: seq<Node>): nat
    decreases ns
  {
    if ns == [] then 0 else SizeAll(ns[..|ns| - 1]) + Size(ns[|ns| - 1])
  }

  lemma SizeAllOneMore(ns: seq<Node>, n: Node)
    ensures SizeAll(ns + [n]) == SizeAll(ns) + Size(n)
  {
    assert (ns + [n])[..|ns|] == ns;
  }

  lemma {:induction false} SizeAllOneFirst(n: Node, ns: seq<Node>)
    ensures SizeAll([n] + ns) == Size(n) + SizeAll(ns)
  {
    if ns == [] {
      assert [n] + ns == [] + [n];
      SizeAllOneMore([], n);
    } else {
      var front, last := ns[..|ns| - 1], ns[|ns| - 1];
      SizeAllOneFirst(n, front);
      assert [n] + ns == ([n] + front) + [last];
      SizeAllOneMore([n] + front, last);
    }
  }

  lemma {:induction false} SizeOfMember(ns: seq<Node>, i: nat)
    requires i < |ns|
    ensures Size(ns[i]) <= SizeAll(ns)
  {
    if i < |ns| - 1 {
      SizeOfMember(ns[..|ns| - 1], i);
    }
  }

  lemma SizeOfChildren(n: Node)
    ensures Size(n) == 1 + SizeAll(Children(n))
  {
    match n
    case SelectorExpr(x, _) => SizeAllOneMore([], x); assert [] + [x] == [x];
    case CallExpr(fun, args) => SizeAllOneFirst(fun, args);
    case TypeSpec(_, _, typeParams, typ) => SizeAllOneMore(typeParams, typ);
    case Ident(_) =>
    case GenDecl(_, _, _) =>
    case StructType(_) =>
    case Other(_) =>
  }

  // ---------------------------------------------------------------- places

  /** The node that a path of child numbers leads to. */
  function At(n: Node, path: Path): Option<Node>
    decreases |path|, 0
  {
    if path == [] then Some(n) else AtAll(Children(n), path)
  }

  function AtAll(ns: seq<Node>, path: Path): Option<Node>
    requires path != []
    decreases |path| - 1, 1
  {
    if path[0] < |ns| then At(ns[path[0]], path[1..]) else None
  }

  /** The node c is somewhere in the tree n, in whatever part of it. */
  ghost predicate Occurs(c: Node, n: Node)
    decreases n
  {
    c == n ||
    match n
    case Ident(_) => false
    case SelectorExpr(x, _) => Occurs(c, x)
    case CallExpr(fun, args) => Occurs(c, fun) || exists k :: 0 <= k < |args| && Occurs(c, args[k])
    case GenDecl(_, _, specs) => exists k :: 0 <= k < |specs| && Occurs(c, specs[k])
    case TypeSpec(_, _, typeParams, typ) =>
      Occurs(c, typ) || exists k :: 0 <= k < |typeParams| && Occurs(c, typeParams[k])
    case StructType(fields) => exists k :: 0 <= k < |fields| && Occurs(c, fields[k])
    case Other(parts) => exists k :: 0 <= k < |parts| && Occurs(c, parts[k])
  }

  lemma ChildOccurs(c: Node, n: Node, k: nat)
    requires k < |Children(n)| && Occurs(c, Children(n)[k])
    ensures Occurs(c, n)
  {
  }

  lemma OccursInChild(c: Node, n: Node) returns (k: nat)
    requires Occurs(c, n) && c != n
    ensures k < |Children(n)| && Occurs(c, Children(n)[k])
  {
    match n
    case SelectorExpr(x, _) => k := 0;
    case CallExpr(fun, args) =>
      if Occurs(c, fun) {
        k := 0;
      } else {
        var j :| 0 <= j < |args| && Occurs(c, args[j]);
        assert Children(n)[j + 1] == args[j];
        k := j + 1;
      }
    case GenDecl(_, _, specs) => k :| k < |specs| && Occurs(c, specs[k]);
    case TypeSpec(_, _, typeParams, typ) =>
      if Occurs(c, typ) {
        k := |typeParams|;
      } else {
        k :| k < |typeParams| && Occurs(c, typeParams[k]);
        assert Children(n)[k] == typeParams[k];
      }
    case StructType(fields) => k :| k < |fields| && Occurs(c, fields[k]);
    case Other(parts) => k :| k < |parts| && Occurs(c, parts[k]);
  }

  lemma {:induction false} PlaceOf(c: Node, n: Node) returns (path: Path)
    requires Occurs(c, n)
    ensures At(n, path) == Some(c)
    decreases Size(n)
  {
    if c == n {
      path := [];
    } else {
      var k := OccursInChild(c, n);
      SizeOfChildren(n);
      SizeOfMember(Children(n), k);
      var rest := PlaceOf(c, Children(n)[k]);
      path := [k] + rest;
      assert path[1..] == rest;
    }
  }

  lemma {:induction false} PlaceOccurs(n: Node, path: Path)
    requires At(n, path).Some?
    ensures Occurs(At(n, path).value, n)
    decreases |path|
  {
    if path != [] {
      var k := path[0];
      PlaceOccurs(Children(n)[k], path[1..]);
      ChildOccurs(At(n, path).value, n, k);
    }
  }

  /** The paths lead to exactly what is in the tree. */
  lemma OccursIffAt(c: Node, n: Node)
    ensures Occurs(c, n) <==> exists path :: At(n, path) == Some(c)
  {
    if Occurs(c, n) {
      var path := PlaceOf(c, n);
    }
    if path :| At(n, path) == Some(c) {
      PlaceOccurs(n, path);
    }
  }

  // ---------------------------------------------------------------- the walk

  datatype Spot = Spot(path: Path, node: Node)

  /** The nodes in the order in which they are visited: depth first, a node
      before its children. */
  function Walk(n: Node, here: Path): seq<Spot>
    decreases Size(n), 0
  {
    SizeOfChildren(n);
    [Spot(here, n)] + WalkAll(Children(n), here)
  }

  function WalkAll(ns: seq<Node>, here: Path): seq<Spot>
    decreases SizeAll(ns), 1
  {
    if ns == [] then []
    else WalkAll(ns[..|ns| - 1], here) + Walk(ns[|ns| - 1], here + [|ns| - 1])
  }

  /** The place s is below here, and its path from there leads to its node. */
  predicate FoundBelow(n: Node, here: Path, s: Spot) {
    here <= s.path && At(n, s.path[|here|..]) == Some(s.node)
  }

  predicate FoundBelowAll(ns: seq<Node>, here: Path, s: Spot) {
    here < s.path && AtAll(ns, s.path[|here|..]) == Some(s.node)
  }

  /** The walk visits exactly the places of the tree. */
  lemma {:induction false} WalkFindsExactly(n: Node, here: Path, s: Spot)
    ensures s in Walk(n, here) <==> FoundBelow(n, here, s)
    decreases Size(n), 0
  {
    SizeOfChildren(n);
    WalkAllFindsExactly(Children(n), here, s);
    if here <= s.path && s.path[|here|..] == [] {
      assert s.path == here;
    }
  }

  lemma {:induction false} WalkAllFindsExactly(ns: seq<Node>, here: Path, s: Spot)
    ensures s in WalkAll(ns, here) <==> FoundBelowAll(ns, here, s)
    decreases SizeAll(ns), 1
  {
    if ns != [] {
      var k := |ns| - 1;
      WalkAllFindsExactly(ns[..k], here, s);
      WalkFindsExactly(ns[k], here + [k], s);
      if here < s.path {
        assert s.path[|here|..][1..] == s.path[|here| + 1..];
        assert here + [k] <= s.path <==> s.path[|here|] == k;
      }
    }
  }

  ghost predicate InOrder(spots: seq<Spot>) {
    forall i, j :: 0 <= i < j < |spots| ==> Before(spots[i].path, spots[j].path)
  }

  lemma InOrderConcat(a: seq<Spot>, b: seq<Spot>)
    requires InOrder(a) && InOrder(b)
    requires forall x, y :: x in a && y in b ==> Before(x.path, y.path)
    ensures InOrder(a + b)
  {
    var c := a + b;
    forall i, j | 0 <= i < j < |c| ensures Before(c[i].path, c[j].path) {
      if i < |a| <= j {
        assert c[i] in a && c[j] in b;
      }
    }
  }

  /** In the order of the paths, so no place is visited twice. */
  lemma {:induction false} WalkIsInOrder(n: Node, here: Path)
    ensures InOrder(Walk(n, here))
    decreases Size(n), 0
  {
    SizeOfChildren(n);
    WalkAllIsInOrder(Children(n), here);
    var below := WalkAll(Children(n), here);
    forall y | y in below ensures Before(here, y.path) {
      WalkAllFindsExactly(Children(n), here, y);
      ParentBefore(here, y.path);
    }
    InOrderConcat([Spot(here, n)], below);
  }

  lemma {:induction false} WalkAllIsInOrder(ns: seq<Node>, here: Path)
    ensures InOrder(WalkAll(ns, here))
    decreases SizeAll(ns), 1
  {
    if ns != [] {
      var k := |ns| - 1;
      WalkAllIsInOrder(ns[..k], here);
      WalkIsInOrder(ns[k], here + [k]);
      var a, b := WalkAll(ns[..k], here), Walk(ns[k], here + [k]);
      forall x, y | x in a && y in b ensures Before(x.path, y.path) {
        WalkAllFindsExactly(ns[..k], here, x);
        WalkFindsExactly(ns[k], here + [k], y);
        EarlierSibling(here, k, x.path, y.path);
      }
      InOrderConcat(a, b);
    }
  }

  lemma EarlierSibling(here: Path, k: nat, p: Path, q: Path)
    requires here < p && p[|here|] < k && here + [k] <= q
    ensures Before(p, q)
  {
    assert q[|here|] == (here + [k])[|here|] == k;
    assert p[..|here|] == here;
    assert q[..|here|] == (here + [k])[..|here|] == here;
    SiblingBefore(p, q, |here|);
  }
}
