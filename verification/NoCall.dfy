/** The nocall analyzer: it reports the calls of the functions that a flag
    names. */
module NoCall {
  import opened Lexicographic
  import opened Options
  import opened GoAst

  // ---------------------------------------------------------------- the flag

  /** The first place of c in s, or the length of s. */
  function IndexOf(s: string, c: char): (i: nat)
    ensures i <= |s| && c !in s[..i] && (i < |s| ==> s[i] == c)
  {
    if s == [] || s[0] == c then 0
    else
      var i := 1 + IndexOf(s[1..], c);
      assert s[..i] == [s[0]] + s[1..][..i - 1];
      i
  }

  /** strings.Split */
  function Split(s: string, sep: char): seq<string>
    decreases |s|
  {
    var i := IndexOf(s, sep);
    if i == |s| then [s] else [s[..i]] + Split(s[i + 1..], sep)
  }

  /** s[from..to] has no separator and stands between two separators or ends
      of s. */
  predicate IsComponent(s: string, sep: char, from: int, to: int) {
    && 0 <= from <= to <= |s|
    && sep !in s[from..to]
    && (from == 0 || s[from - 1] == sep)
    && (to == |s| || s[to] == sep)
  }

  ghost predicate HasComponent(s: string, sep: char, c: string) {
    exists from, to :: IsComponent(s, sep, from, to) && s[from..to] == c
  }

  lemma FirstComponent(s: string, sep: char, from: int, to: int)
    requires IsComponent(s, sep, from, to) && from <= IndexOf(s, sep)
    ensures from == 0 && to == IndexOf(s, sep)
  {
    var i := IndexOf(s, sep);
    assert forall k :: 0 <= k < i ==> s[..i][k] == s[k];
    assert forall k :: from <= k < to ==> s[from..to][k - from] == s[k];
  }

  lemma LaterComponent(s: string, sep: char, k: nat, from: int, to: int)
    requires k <= |s| && k > 0 && s[k - 1] == sep && from >= 0
    ensures IsComponent(s, sep, k + from, k + to) <==> IsComponent(s[k..], sep, from, to)
    ensures from <= to <= |s| - k ==> s[k + from..k + to] == s[k..][from..to]
  {
    if from <= to <= |s| - k {
      assert s[k + from..k + to] == s[k..][from..to];
    }
  }

  lemma SplitFront(s: string, sep: char, c: string)
    requires HasComponent(s, sep, c)
    ensures var i := IndexOf(s, sep); c == s[..i] || (i < |s| && HasComponent(s[i + 1..], sep, c))
  {
    var i := IndexOf(s, sep);
    var from, to :| IsComponent(s, sep, from, to) && s[from..to] == c;
    if from <= i {
      FirstComponent(s, sep, from, to);
    } else {
      LaterComponent(s, sep, i + 1, from - (i + 1), to - (i + 1));
    }
  }

  lemma JoinFront(s: string, sep: char, c: string)
    requires var i := IndexOf(s, sep); c == s[..i] || (i < |s| && HasComponent(s[i + 1..], sep, c))
    ensures HasComponent(s, sep, c)
  {
    var i := IndexOf(s, sep);
    if c == s[..i] {
      assert IsComponent(s, sep, 0, i) && s[0..i] == c;
    } else {
      var from, to :| IsComponent(s[i + 1..], sep, from, to) && s[i + 1..][from..to] == c;
      LaterComponent(s, sep, i + 1, from, to);
    }
  }

  lemma SplitStep(s: string, sep: char, c: string)
    ensures var i := IndexOf(s, sep);
      c in Split(s, sep) <==> c == s[..i] || (i < |s| && c in Split(s[i + 1..], sep))
  {
    assert s[..|s|] == s;
  }

  /** Split gives exactly the components. */
  lemma {:induction false} SplitFindsComponents(s: string, sep: char, c: string)
    ensures c in Split(s, sep) <==> HasComponent(s, sep, c)
    decreases |s|
  {
    SplitStep(s, sep, c);
    if IndexOf(s, sep) < |s| {
      SplitFindsComponents(s[IndexOf(s, sep) + 1..], sep, c);
    }
    if c in Split(s, sep) {
      JoinFront(s, sep, c);
    }
    if HasComponent(s, sep, c) {
      SplitFront(s, sep, c);
    }
  }

  // ---------------------------------------------------------------- one call

  /** The name the analyzer compares; None where it returns before comparing. */
  function Callee(fun: Node): Option<string> {
    match fun
    case Ident(name) => Some(name)
    case SelectorExpr(x, sel) => if x.Ident? then Some(x.name + "." + sel) else None
    case _ => Some("")
  }

  predicate Restricted(n: Node, functionNames: seq<string>) {
    n.CallExpr? && Callee(n.fun).Some? && Callee(n.fun).value in functionNames
  }

  /** A callee is named when it is an identifier or pkg.Sel. */
  predicate Named(fun: Node) {
    fun.Ident? || (fun.SelectorExpr? && fun.x.Ident?)
  }

  /** Identifiers of Go are not empty and have no dot. */
  predicate GoName(s: string) {
    s != "" && '.' !in s
  }

  predicate GoNames(fun: Node)
    requires Named(fun)
  {
    match fun
    case Ident(name) => GoName(name)
    case SelectorExpr(x, sel) => GoName(x.name) && GoName(sel)
  }

  lemma DotSplits(a: string, b: string, c: string, d: string)
    requires GoName(a) && GoName(c) && a + "." + b == c + "." + d
    ensures a == c && b == d
  {
    var s, t := a + "." + b, c + "." + d;
    assert s[|a|] == '.' && t[|c|] == '.';
    assert forall k :: 0 <= k < |a| ==> s[k] == a[k];
    assert forall k :: 0 <= k < |c| ==> t[k] == c[k];
    assert s[..|a|] == a && t[..|c|] == c;
    assert s[|a| + 1..] == b && t[|c| + 1..] == d;
  }

  /** Different callees of these two kinds have different names, and none has
      the name of the other kinds. */
  lemma RenderingIsInjective(f: Node, g: Node)
    requires Named(f) && Named(g) && GoNames(f) && GoNames(g)
    ensures Callee(f) == Callee(g) <==> f == g
    ensures Callee(f) != Some("")
  {
    match f {
      case Ident(name) =>
        if g.SelectorExpr? {
          assert (g.x.name + "." + g.sel)[|g.x.name|] == '.';
        }
      case SelectorExpr(x, sel) =>
        assert (x.name + "." + sel)[|x.name|] == '.';
        if g.SelectorExpr? && Callee(f) == Callee(g) {
          DotSplits(x.name, sel, g.x.name, g.sel);
        }
    }
  }

  // ---------------------------------------------------------------- the reports

  datatype Report = Report(call: Path, name: string)

  /** The reports of the visits. */
  function ReportsOf(spots: seq<Spot>, functionNames: seq<string>): seq<Report> {
    if spots == [] then []
    else ReportsOf(spots[..|spots| - 1], functionNames) + ReportsAt(spots[|spots| - 1], functionNames)
  }

  function ReportsAt(s: Spot, functionNames: seq<string>): seq<Report> {
    if Restricted(s.node, functionNames) then [Report(s.path, Callee(s.node.fun).value)] else []
  }

  /** What the analyzer reports for the files of a package. */
  function Found(files: seq<Node>, flagFunctions: string): seq<Report> {
    if flagFunctions == "" then [] else ReportsOf(WalkAll(files, []), Split(flagFunctions, ','))
  }

  lemma {:induction false} ReportsConcat(a: seq<Spot>, b: seq<Spot>, functionNames: seq<string>)
    ensures ReportsOf(a + b, functionNames) == ReportsOf(a, functionNames) + ReportsOf(b, functionNames)
  {
    if b == [] {
      assert a + b == a;
    } else {
      assert (a + b)[..|a + b| - 1] == a + b[..|b| - 1];
      ReportsConcat(a, b[..|b| - 1], functionNames);
    }
  }

  lemma ReportsJoin(before: seq<Report>, all: seq<Spot>, a: seq<Spot>, b: seq<Spot>, functionNames: seq<string>)
    requires all == a + b
    ensures before + ReportsOf(all, functionNames) == before + ReportsOf(a, functionNames) + ReportsOf(b, functionNames)
  {
    ReportsConcat(a, b, functionNames);
  }

  class Pass {
    var reports: seq<Report>

    method Reportf(call: Path, name: string)
      modifies this
      ensures reports == old(reports) + [Report(call, name)]
    {
      reports := reports + [Report(call, name)];
    }
  }

  /** The visitor. It always asks to descend, after an early return too. */
  method Visit(pass: Pass, n: Node, here: Path, functionNames: seq<string>) returns (descend: bool)
    modifies pass
    ensures descend
    ensures pass.reports == old(pass.reports) + ReportsAt(Spot(here, n), functionNames)
  {
    if n.CallExpr? {
      var name := "";
      match n.fun {
        case Ident(id) => name := id;
        case SelectorExpr(x, sel) =>
          if !x.Ident? {
            return true;
          }
          name := x.name + "." + sel;
        case _ =>
      }
      if name in functionNames {
        pass.Reportf(here, name);
      }
    }
    return true;
  }

  lemma OneReport(s: Spot, functionNames: seq<string>)
    ensures ReportsOf([s], functionNames) == ReportsAt(s, functionNames)
  {
    assert [s][..0] == [];
  }

  lemma VisitFirst(before: seq<Report>, n: Node, here: Path, functionNames: seq<string>)
    ensures before + ReportsOf(Walk(n, here), functionNames)
         == before + ReportsAt(Spot(here, n), functionNames) + ReportsOf(WalkAll(Children(n), here), functionNames)
  {
    ReportsJoin(before, Walk(n, here), [Spot(here, n)], WalkAll(Children(n), here), functionNames);
    OneReport(Spot(here, n), functionNames);
  }

  /** ast.Inspect with the visitor: the children of a node are walked only if
      the visitor asks for it. */
  method Inspect(pass: Pass, n: Node, here: Path, functionNames: seq<string>)
    modifies pass
    ensures pass.reports == old(pass.reports) + ReportsOf(Walk(n, here), functionNames)
    decreases Size(n), 0
  {
    SizeOfChildren(n);
    VisitFirst(pass.reports, n, here, functionNames);
    var descend := Visit(pass, n, here, functionNames);
    if descend {
      InspectAll(pass, Children(n), here, functionNames);
    }
  }

  lemma OneMoreChild(before: seq<Report>, ns: seq<Node>, i: nat, here: Path, functionNames: seq<string>)
    requires i < |ns|
    ensures before + ReportsOf(WalkAll(ns[..i + 1], here), functionNames)
         == before + ReportsOf(WalkAll(ns[..i], here), functionNames)
          + ReportsOf(Walk(ns[i], here + [i]), functionNames)
  {
    assert ns[..i + 1][..i] == ns[..i];
    ReportsJoin(before, WalkAll(ns[..i + 1], here), WalkAll(ns[..i], here), Walk(ns[i], here + [i]), functionNames);
  }

  method InspectAll(pass: Pass, ns: seq<Node>, here: Path, functionNames: seq<string>)
    modifies pass
    ensures pass.reports == old(pass.reports) + ReportsOf(WalkAll(ns, here), functionNames)
    decreases SizeAll(ns), 1
  {
    for i := 0 to |ns|
      invariant pass.reports == old(pass.reports) + ReportsOf(WalkAll(ns[..i], here), functionNames)
    {
      SizeOfMember(ns, i);
      OneMoreChild(old(pass.reports), ns, i, here, functionNames);
      Inspect(pass, ns[i], here + [i], functionNames);
    }
    assert ns[..|ns|] == ns;
  }

  method Run(pass: Pass, files: seq<Node>, flagFunctions: string)
    modifies pass
    ensures pass.reports == old(pass.reports) + Found(files, flagFunctions)
  {
    if flagFunctions == "" {
      return;
    }
    var functionNames := Split(flagFunctions, ',');
    InspectAll(pass, files, [], functionNames);
  }

  // ---------------------------------------------------------------- which calls

  /** The node at the path calls something that is compared under this name. */
  predicate Calls(files: seq<Node>, r: Report) {
    && r.call != []
    && AtAll(files, r.call).Some?
    && AtAll(files, r.call).value.CallExpr?
    && Callee(AtAll(files, r.call).value.fun) == Some(r.name)
  }

  ghost predicate ReportsInOrder(rs: seq<Report>) {
    forall i, j :: 0 <= i < j < |rs| ==> Before(rs[i].call, rs[j].call)
  }

  ghost predicate ComesFrom(r: Report, spots: seq<Spot>, functionNames: seq<string>) {
    exists k :: 0 <= k < |spots| && r in ReportsAt(spots[k], functionNames)
  }

  lemma {:induction false} FilterMembers(spots: seq<Spot>, functionNames: seq<string>, r: Report)
    ensures r in ReportsOf(spots, functionNames) <==> ComesFrom(r, spots, functionNames)
  {
    if spots != [] {
      var front := spots[..|spots| - 1];
      FilterMembers(front, functionNames, r);
      assert forall k :: 0 <= k < |front| ==> front[k] == spots[k];
    }
  }

  lemma {:induction false} FilterKeepsOrder(spots: seq<Spot>, functionNames: seq<string>)
    requires InOrder(spots)
    ensures ReportsInOrder(ReportsOf(spots, functionNames))
  {
    if spots != [] {
      var front := spots[..|spots| - 1];
      FilterKeepsOrder(front, functionNames);
      var rs := ReportsOf(front, functionNames);
      forall i | 0 <= i < |rs| ensures Before(rs[i].call, spots[|spots| - 1].path) {
        FilterMembers(front, functionNames, rs[i]);
      }
    }
  }

  /** The reports are, in the order of the visits and each once, exactly the
      calls at any depth whose name is a component of the flag. */
  lemma ReportsAreTheRestrictedCalls(files: seq<Node>, flagFunctions: string)
    ensures ReportsInOrder(Found(files, flagFunctions))
    ensures forall r :: r in Found(files, flagFunctions) <==>
      flagFunctions != "" && Calls(files, r) && HasComponent(flagFunctions, ',', r.name)
  {
    if flagFunctions != "" {
      var spots, functionNames := WalkAll(files, []), Split(flagFunctions, ',');
      WalkAllIsInOrder(files, []);
      FilterKeepsOrder(spots, functionNames);
      forall r
        ensures r in ReportsOf(spots, functionNames) <==> Calls(files, r) && HasComponent(flagFunctions, ',', r.name)
      {
        FilterMembers(spots, functionNames, r);
        SplitFindsComponents(flagFunctions, ',', r.name);
        WhereItComesFrom(files, functionNames, r);
      }
    }
  }

  lemma WhereItComesFrom(files: seq<Node>, functionNames: seq<string>, r: Report)
    ensures ComesFrom(r, WalkAll(files, []), functionNames) <==> Calls(files, r) && r.name in functionNames
  {
    var spots := WalkAll(files, []);
    assert r.call[0..] == r.call;
    if ComesFrom(r, spots, functionNames) {
      var k :| 0 <= k < |spots| && r in ReportsAt(spots[k], functionNames);
      WalkAllFindsExactly(files, [], spots[k]);
    }
    if Calls(files, r) && r.name in functionNames {
      var s := Spot(r.call, AtAll(files, r.call).value);
      WalkAllFindsExactly(files, [], s);
      assert r in ReportsAt(s, functionNames);
    }
  }

  function CallsOf(rs: seq<Report>): (ps: seq<Path>)
    ensures |ps| == |rs| && forall i :: 0 <= i < |rs| ==> ps[i] == rs[i].call
  {
    seq(|rs|, i requires 0 <= i < |rs| => rs[i].call)
  }

  /** No other list does that: order and members determine the reports. */
  lemma ReportsAreDetermined(files: seq<Node>, flagFunctions: string, rs: seq<Report>)
    requires ReportsInOrder(rs)
    requires forall r :: r in rs <==>
      flagFunctions != "" && Calls(files, r) && HasComponent(flagFunctions, ',', r.name)
    ensures rs == Found(files, flagFunctions)
  {
    var fs := Found(files, flagFunctions);
    ReportsAreTheRestrictedCalls(files, flagFunctions);
    forall p ensures p in CallsOf(rs) <==> p in CallsOf(fs) {
      if p in CallsOf(rs) {
        var i :| 0 <= i < |rs| && CallsOf(rs)[i] == p;
        assert rs[i] in fs;
      }
      if p in CallsOf(fs) {
        var i :| 0 <= i < |fs| && CallsOf(fs)[i] == p;
        assert fs[i] in rs;
      }
    }
    IncreasingIsDetermined(CallsOf(rs), CallsOf(fs));
    forall i | 0 <= i < |rs| ensures rs[i] == fs[i] {
      assert rs[i] in rs && fs[i] in fs;
      assert CallsOf(rs)[i] == CallsOf(fs)[i];
    }
  }

  /** A call of something that is neither an identifier nor a selection is
      reported exactly if the flag is not empty and has an empty component; a
      selection from anything but an identifier never is. */
  lemma OtherCallees(files: seq<Node>, flagFunctions: string, call: Path, name: string)
    requires call != [] && AtAll(files, call).Some? && AtAll(files, call).value.CallExpr?
    requires !Named(AtAll(files, call).value.fun)
    ensures Report(call, name) in Found(files, flagFunctions) <==>
      && !AtAll(files, call).value.fun.SelectorExpr? && name == ""
      && flagFunctions != "" && HasComponent(flagFunctions, ',', "")
  {
    ReportsAreTheRestrictedCalls(files, flagFunctions);
  }

  // ---------------------------------------------------------------- in terms of the code

  lemma EmptyFlag(c: string)
    ensures HasComponent("", ',', c) ==> c == ""
  {
  }

  /** A call pkg.Sel(...) is reported as "pkg.Sel", and exactly if the flag has
      that component. */
  lemma PackageCalls(files: seq<Node>, flagFunctions: string, call: Path, p: string, sel: string, args: seq<Node>,
                     name: string)
    requires call != [] && AtAll(files, call) == Some(CallExpr(SelectorExpr(Ident(p), sel), args))
    ensures Report(call, name) in Found(files, flagFunctions)
       <==> name == p + "." + sel && HasComponent(flagFunctions, ',', p + "." + sel)
  {
    ReportsAreTheRestrictedCalls(files, flagFunctions);
    EmptyFlag(p + "." + sel);
  }

  /** A call f(...) is reported as "f". */
  lemma PlainCalls(files: seq<Node>, flagFunctions: string, call: Path, f: string, args: seq<Node>, name: string)
    requires call != [] && AtAll(files, call) == Some(CallExpr(Ident(f), args)) && f != ""
    ensures Report(call, name) in Found(files, flagFunctions)
       <==> name == f && HasComponent(flagFunctions, ',', f)
  {
    ReportsAreTheRestrictedCalls(files, flagFunctions);
    EmptyFlag(f);
  }

  /** Wherever it stands: as an argument, in a selection from its result, in the
      body of a function literal. */
  lemma NoCallIsMissed(files: seq<Node>, flagFunctions: string, i: nat, p: string, sel: string, args: seq<Node>)
    returns (call: Path)
    requires i < |files| && Occurs(CallExpr(SelectorExpr(Ident(p), sel), args), files[i])
    requires HasComponent(flagFunctions, ',', p + "." + sel)
    ensures call != [] && AtAll(files, call) == Some(CallExpr(SelectorExpr(Ident(p), sel), args))
    ensures Report(call, p + "." + sel) in Found(files, flagFunctions)
  {
    var path := PlaceOf(CallExpr(SelectorExpr(Ident(p), sel), args), files[i]);
    call := [i] + path;
    assert call[1..] == path;
    PackageCalls(files, flagFunctions, call, p, sel, args, p + "." + sel);
  }

  /** In the words of the flag. */
  predicate IsCalled(fun: Node, name: string) {
    fun == Ident(name) || (fun.SelectorExpr? && fun.x.Ident? && fun.x.name + "." + fun.sel == name)
  }

  /** And whatever is reported is such a call in one of the files. */
  lemma OnlyCallsAreReported(files: seq<Node>, flagFunctions: string, r: Report)
    requires r in Found(files, flagFunctions) && r.name != ""
    ensures exists i, fun, args :: 0 <= i < |files| && Occurs(CallExpr(fun, args), files[i]) && IsCalled(fun, r.name)
  {
    ReportsAreTheRestrictedCalls(files, flagFunctions);
    assert Calls(files, r);
    var i := r.call[0];
    PlaceOccurs(files[i], r.call[1..]);
    var c := AtAll(files, r.call).value;
    assert Occurs(CallExpr(c.fun, c.args), files[i]);
  }
}
