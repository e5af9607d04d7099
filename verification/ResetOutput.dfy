/** The main function of the generator: what it writes for a list of packages,
    and that the order of packages, files and declarations does not matter. */
module ResetOutput {
  import opened Lexicographic
  import opened Options
  import opened Lists
  import opened GoAst
  import opened ResetGen

  /** A loaded package. dirs are the directories of its Go files, in the order of
      the files. */
  datatype Package = Package(path: string, name: string, dirs: seq<string>, syntax: seq<Node>)

  predicate Scanned(p: Package) {
    && p.syntax != [] && p.dirs != []
    && !Contains(p.path, "/cmd/reset") && !HasSuffix(p.path, "cmd/reset")
  }

  datatype PkgOut = PkgOut(pkgName: string, targets: seq<string>)

  datatype File = File(dir: string, pkgName: string, names: seq<string>)

  // ---------------------------------------------------------------- the first loop

  ghost function PackageTargets(p: Package): seq<string> {
    if Scanned(p) then FromSpots(WalkAll(p.syntax, [])) else []
  }

  function OutOf(out: map<string, PkgOut>, dir: string, name: string): PkgOut {
    if dir in out then out[dir] else PkgOut(name, [])
  }

  ghost function Merge(out: map<string, PkgOut>, p: Package): map<string, PkgOut>
    requires PackageTargets(p) != []
  {
    var po := OutOf(out, p.dirs[0], p.name);
    out[p.dirs[0] := PkgOut(po.pkgName, po.targets + SortedNames(PackageTargets(p)))]
  }

  ghost function With(out: map<string, PkgOut>, p: Package): map<string, PkgOut> {
    if PackageTargets(p) == [] then out else Merge(out, p)
  }

  ghost function Collected(pkgs: seq<Package>): map<string, PkgOut> {
    if pkgs == [] then map[] else With(Collected(pkgs[..|pkgs| - 1]), pkgs[|pkgs| - 1])
  }

  lemma CollectedOneMore(pkgs: seq<Package>, i: nat)
    requires i < |pkgs|
    ensures Collected(pkgs[..i + 1]) == With(Collected(pkgs[..i]), pkgs[i])
  {
    assert pkgs[..i + 1][..i] == pkgs[..i];
  }

  method Copy(names: seq<string>) returns (a: array<string>)
    ensures fresh(a) && a[..] == names
  {
    a := new string[|names|](i requires 0 <= i < |names| => names[i]);
  }

  method TargetsOfPackage(pkg: Package) returns (names: seq<string>)
    requires Scanned(pkg)
    ensures names == PackageTargets(pkg)
  {
    var targets := new Targets();
    targets.InspectAll(pkg.syntax, []);
    names := targets.names;
  }

  method SortedCopy(names: seq<string>) returns (sorted: seq<string>)
    ensures sorted == SortedNames(names)
  {
    var a := Copy(names);
    SortInPlace(a);
    sorted := a[..];
  }

  /** The body of the loop over the packages. */
  method AddPackage(outByDir: map<string, PkgOut>, pkg: Package) returns (r: map<string, PkgOut>)
    ensures r == With(outByDir, pkg)
  {
    if !Scanned(pkg) {
      return outByDir;
    }
    var dir := pkg.dirs[0];
    var targets := TargetsOfPackage(pkg);
    if |targets| == 0 {
      return outByDir;
    }
    var sorted := SortedCopy(targets);
    var po := OutOf(outByDir, dir, pkg.name);
    r := outByDir[dir := PkgOut(po.pkgName, po.targets + sorted)];
  }

  method Collect(pkgs: seq<Package>) returns (outByDir: map<string, PkgOut>)
    ensures outByDir == Collected(pkgs)
  {
    outByDir := map[];
    for i := 0 to |pkgs|
      invariant outByDir == Collected(pkgs[..i])
    {
      CollectedOneMore(pkgs, i);
      outByDir := AddPackage(outByDir, pkgs[i]);
    }
    assert pkgs[..|pkgs|] == pkgs;
  }

  // ---------------------------------------------------------------- the second loop

  function DirsOf(written: seq<File>): (ds: seq<string>)
    ensures |ds| == |written| && forall i :: 0 <= i < |ds| ==> ds[i] == written[i].dir
  {
    seq(|written|, i requires 0 <= i < |written| => written[i].dir)
  }

  /** The files of the directories, in increasing order, and nothing else. */
  ghost predicate IsOutput(pkgs: seq<Package>, written: seq<File>) {
    && StrictlyIncreasing(DirsOf(written))
    && (forall d :: d in DirsOf(written) <==> d in Collected(pkgs))
    && forall i :: 0 <= i < |written| ==>
      && written[i].dir in Collected(pkgs)
      && written[i] == FileFor(Collected(pkgs), written[i].dir)
  }

  function FileFor(out: map<string, PkgOut>, dir: string): File
    requires dir in out
  {
    File(dir, out[dir].pkgName, Dedup(out[dir].targets))
  }

  ghost predicate Once(s: seq<string>) {
    forall x :: multiset(s)[x] <= 1
  }

  lemma SortedOnce(s: seq<string>)
    requires Once(s)
    ensures StrictlyIncreasing(SortedNames(s))
    ensures forall x :: x in SortedNames(s) <==> x in s
  {
    var t := SortedNames(s);
    Sorts(s);
    forall x ensures x in t <==> x in s {
      SortKeepsMembers(s, x);
    }
    forall i, j | 0 <= i < j < |t| ensures Less(t[i], t[j]) {
      if t[i] == t[j] {
        TwiceIsTwo(t, i, j);
      }
    }
  }

  /** Ranging over a Go map gives its keys in some order. */
  method KeysOf(m: map<string, PkgOut>) returns (dirs: seq<string>)
    ensures Once(dirs) && forall d :: d in dirs <==> d in m
  {
    dirs := [];
    var left := m.Keys;
    while left != {}
      invariant left <= m.Keys && Once(dirs)
      invariant forall d :: d in dirs <==> d in m && d !in left
      decreases left
    {
      var d :| d in left;
      assert multiset(dirs + [d]) == multiset(dirs) + multiset{d};
      left := left - {d};
      dirs := dirs + [d];
    }
  }

  method WriteFile(outByDir: map<string, PkgOut>, dir: string) returns (f: File)
    requires dir in outByDir
    ensures f == FileFor(outByDir, dir)
  {
    var po := outByDir[dir];
    var a := Copy(po.targets);
    var names := DedupTargets(a);
    f := File(dir, po.pkgName, names);
  }

  method WriteFiles(outByDir: map<string, PkgOut>, dirs: seq<string>) returns (written: seq<File>)
    requires forall i :: 0 <= i < |dirs| ==> dirs[i] in outByDir
    ensures |written| == |dirs| && forall i :: 0 <= i < |dirs| ==> written[i] == FileFor(outByDir, dirs[i])
  {
    written := [];
    for i := 0 to |dirs|
      invariant |written| == i
      invariant forall k :: 0 <= k < i ==> written[k] == FileFor(outByDir, dirs[k])
    {
      var f := WriteFile(outByDir, dirs[i]);
      written := written + [f];
    }
  }

  lemma SortedFilesAreOutput(pkgs: seq<Package>, dirs: seq<string>, written: seq<File>)
    requires StrictlyIncreasing(dirs) && forall d :: d in dirs <==> d in Collected(pkgs)
    requires |written| == |dirs|
    requires forall i :: 0 <= i < |dirs| ==> written[i] == FileFor(Collected(pkgs), dirs[i])
    ensures IsOutput(pkgs, written)
  {
    assert DirsOf(written) == dirs;
  }

  method Generate(pkgs: seq<Package>) returns (written: seq<File>)
    ensures IsOutput(pkgs, written)
  {
    var outByDir := Collect(pkgs);
    var keys := KeysOf(outByDir);
    SortedOnce(keys);
    var dirs := SortedCopy(keys);
    written := WriteFiles(outByDir, dirs);
    SortedFilesAreOutput(pkgs, dirs, written);
  }

  // ---------------------------------------------------------------- what is marked

  /** n is a type declaration with a marked, non-generic struct type called x. */
  ghost predicate DeclaresHere(n: Node, x: string) {
    n.GenDecl? && n.isType && exists k :: 0 <= k < |n.specs| && Wanted(n.specs[k], n.doc) && n.specs[k].name == x
  }

  /** Somewhere in the file, at any depth. */
  ghost predicate Declares(file: Node, x: string) {
    exists path :: At(file, path).Some? && DeclaresHere(At(file, path).value, x)
  }

  ghost predicate AnyDeclares(files: seq<Node>, x: string) {
    exists f :: f in files && Declares(f, x)
  }

  ghost predicate MarkedIn(p: Package, dir: string, x: string) {
    Scanned(p) && p.dirs[0] == dir && AnyDeclares(p.syntax, x)
  }

  /** Some scanned package of the directory declares a marked struct type x. */
  ghost predicate Marks(pkgs: seq<Package>, dir: string, x: string) {
    exists p :: p in pkgs && MarkedIn(p, dir, x)
  }

  lemma {:induction false} SpecMembers(n: Node, specs: seq<Node>, x: string)
    requires n.GenDecl? && specs <= n.specs
    ensures x in FromSpecs(specs, n.doc)
       <==> exists k :: 0 <= k < |specs| && Wanted(n.specs[k], n.doc) && n.specs[k].name == x
  {
    if specs != [] {
      SpecMembers(n, specs[..|specs| - 1], x);
      assert specs[|specs| - 1] == n.specs[|specs| - 1];
    }
  }

  lemma NodeMembers(n: Node, x: string)
    ensures x in FromNode(n) <==> DeclaresHere(n, x)
  {
    if n.GenDecl? {
      SpecMembers(n, n.specs, x);
    }
  }

  ghost predicate SomeSpotDeclares(spots: seq<Spot>, x: string) {
    exists k :: 0 <= k < |spots| && DeclaresHere(spots[k].node, x)
  }

  lemma SpotsOneMore(spots: seq<Spot>, s: Spot, x: string)
    ensures SomeSpotDeclares(spots + [s], x) <==> SomeSpotDeclares(spots, x) || DeclaresHere(s.node, x)
  {
    assert (spots + [s])[|spots|] == s;
    assert forall k :: 0 <= k < |spots| ==> (spots + [s])[k] == spots[k];
  }

  lemma {:induction false} SpotMembers(spots: seq<Spot>, x: string)
    ensures x in FromSpots(spots) <==> SomeSpotDeclares(spots, x)
  {
    if spots != [] {
      var front, s := spots[..|spots| - 1], spots[|spots| - 1];
      SpotMembers(front, x);
      NodeMembers(s.node, x);
      SpotsOneMore(front, s, x);
      assert spots == front + [s];
    }
  }

  lemma WalkFindsDeclarations(files: seq<Node>, x: string)
    requires AnyDeclares(files, x)
    ensures SomeSpotDeclares(WalkAll(files, []), x)
  {
    var f :| f in files && Declares(f, x);
    var i :| 0 <= i < |files| && files[i] == f;
    var path :| At(f, path).Some? && DeclaresHere(At(f, path).value, x);
    var s := Spot([i] + path, At(f, path).value);
    assert s.path[0..] == s.path && s.path[1..] == path;
    WalkAllFindsExactly(files, [], s);
  }

  lemma WalkFindsNothingElse(files: seq<Node>, x: string)
    requires SomeSpotDeclares(WalkAll(files, []), x)
    ensures AnyDeclares(files, x)
  {
    var spots := WalkAll(files, []);
    var k :| 0 <= k < |spots| && DeclaresHere(spots[k].node, x);
    var s := spots[k];
    WalkAllFindsExactly(files, [], s);
    assert s.path[0..] == s.path;
    var f := files[s.path[0]];
    assert At(f, s.path[1..]) == Some(s.node);
    assert f in files && Declares(f, x);
  }

  /** The walk over the files of a package finds exactly what they declare. */
  lemma WalkMembers(files: seq<Node>, x: string)
    ensures x in FromSpots(WalkAll(files, [])) <==> AnyDeclares(files, x)
  {
    SpotMembers(WalkAll(files, []), x);
    if AnyDeclares(files, x) {
      WalkFindsDeclarations(files, x);
    }
    if SomeSpotDeclares(WalkAll(files, []), x) {
      WalkFindsNothingElse(files, x);
    }
  }

  lemma PackageMembers(p: Package, dir: string, x: string)
    ensures MarkedIn(p, dir, x) <==> x in PackageTargets(p) && p.dirs[0] == dir
  {
    WalkMembers(p.syntax, x);
  }

  lemma MarksOneMore(pkgs: seq<Package>, p: Package, dir: string, x: string)
    ensures Marks(pkgs + [p], dir, x) <==> Marks(pkgs, dir, x) || MarkedIn(p, dir, x)
  {
  }

  function TargetsFor(out: map<string, PkgOut>, dir: string): seq<string> {
    if dir in out then out[dir].targets else []
  }

  lemma MergeMembers(out: map<string, PkgOut>, p: Package, dir: string, x: string)
    requires PackageTargets(p) != []
    ensures x in TargetsFor(Merge(out, p), dir)
       <==> x in TargetsFor(out, dir) || (x in PackageTargets(p) && p.dirs[0] == dir)
  {
    SortKeepsMembers(PackageTargets(p), x);
  }

  /** The names collected for a directory are exactly the marked ones. */
  lemma {:induction false} CollectedMembers(pkgs: seq<Package>, dir: string, x: string)
    ensures x in TargetsFor(Collected(pkgs), dir) <==> Marks(pkgs, dir, x)
  {
    if pkgs != [] {
      var front, p := pkgs[..|pkgs| - 1], pkgs[|pkgs| - 1];
      assert pkgs == front + [p];
      CollectedMembers(front, dir, x);
      MarksOneMore(front, p, dir, x);
      PackageMembers(p, dir, x);
      if PackageTargets(p) != [] {
        MergeMembers(Collected(front), p, dir, x);
      }
    }
  }

  lemma {:induction false} CollectedIsNotEmpty(pkgs: seq<Package>, dir: string)
    requires dir in Collected(pkgs)
    ensures Collected(pkgs)[dir].targets != []
  {
    var front, p := pkgs[..|pkgs| - 1], pkgs[|pkgs| - 1];
    if dir in Collected(front) {
      CollectedIsNotEmpty(front, dir);
    }
    SortKeepsMembers(PackageTargets(p), if PackageTargets(p) != [] then PackageTargets(p)[0] else "");
  }

  ghost predicate SomethingMarked(pkgs: seq<Package>, dir: string) {
    exists x :: Marks(pkgs, dir, x)
  }

  /** A file is written for exactly the directories with a marked type. */
  lemma CollectedDirs(pkgs: seq<Package>, dir: string)
    ensures dir in Collected(pkgs) <==> SomethingMarked(pkgs, dir)
  {
    if dir in Collected(pkgs) {
      CollectedIsNotEmpty(pkgs, dir);
      CollectedMembers(pkgs, dir, Collected(pkgs)[dir].targets[0]);
    }
    if SomethingMarked(pkgs, dir) {
      var x :| Marks(pkgs, dir, x);
      CollectedMembers(pkgs, dir, x);
    }
  }

  /** Each file lists, strictly increasing, exactly the marked non-generic struct
      types of the scanned packages of its directory; a type without a name, which
      no parsed file has, would be left out. */
  lemma FilesAreComplete(pkgs: seq<Package>, written: seq<File>)
    requires IsOutput(pkgs, written)
    ensures StrictlyIncreasing(DirsOf(written))
    ensures forall d :: d in DirsOf(written) <==> SomethingMarked(pkgs, d)
    ensures forall i :: 0 <= i < |written| ==>
      && StrictlyIncreasing(written[i].names)
      && forall x :: x in written[i].names <==> Marks(pkgs, written[i].dir, x) && x != ""
  {
    forall d ensures d in DirsOf(written) <==> SomethingMarked(pkgs, d) {
      CollectedDirs(pkgs, d);
    }
    forall i | 0 <= i < |written|
      ensures StrictlyIncreasing(written[i].names)
      ensures forall x :: x in written[i].names <==> Marks(pkgs, written[i].dir, x) && x != ""
    {
      var dir := written[i].dir;
      DedupIsCanonical(Collected(pkgs)[dir].targets);
      forall x ensures x in Collected(pkgs)[dir].targets <==> Marks(pkgs, dir, x) {
        CollectedMembers(pkgs, dir, x);
      }
    }
  }

  // ---------------------------------------------------------------- canonical

  function AllCodes(s: seq<string>): (ps: seq<Path>)
    ensures |ps| == |s| && forall i :: 0 <= i < |s| ==> ps[i] == Codes(s[i])
  {
    seq(|s|, i requires 0 <= i < |s| => Codes(s[i]))
  }

  lemma CodesMembers(s: seq<string>, t: seq<string>)
    requires forall x :: x in s ==> x in t
    ensures forall p :: p in AllCodes(s) ==> p in AllCodes(t)
  {
    forall p | p in AllCodes(s) ensures p in AllCodes(t) {
      var i :| 0 <= i < |s| && AllCodes(s)[i] == p;
      assert s[i] in t;
      var j :| 0 <= j < |t| && t[j] == s[i];
      assert AllCodes(t)[j] == p;
    }
  }

  /** A strictly increasing list of strings is determined by its members. */
  lemma NamesAreDetermined(s: seq<string>, t: seq<string>)
    requires StrictlyIncreasing(s) && StrictlyIncreasing(t)
    requires forall x :: x in s <==> x in t
    ensures s == t
  {
    CodesMembers(s, t);
    CodesMembers(t, s);
    IncreasingIsDetermined(AllCodes(s), AllCodes(t));
    forall i | 0 <= i < |s| ensures s[i] == t[i] {
      assert AllCodes(s)[i] == AllCodes(t)[i];
      CodesAreInjective(s[i], t[i]);
    }
  }

  /** Running the names of a file through the generator's dedup again changes
      nothing. */
  lemma SecondDedupChangesNothing(names: seq<string>)
    ensures Dedup(Dedup(names)) == Dedup(names)
  {
    DedupIsCanonical(names);
    DedupIsCanonical(Dedup(names));
    NamesAreDetermined(Dedup(Dedup(names)), Dedup(names));
  }

  /** What is marked determines the files but for their package clause. */
  lemma MarksDetermineFiles(pkgs: seq<Package>, pkgs': seq<Package>, w: seq<File>, w': seq<File>)
    requires IsOutput(pkgs, w) && IsOutput(pkgs', w')
    requires forall d, x :: Marks(pkgs, d, x) <==> Marks(pkgs', d, x)
    ensures |w| == |w'| && forall i :: 0 <= i < |w| ==> w[i].dir == w'[i].dir && w[i].names == w'[i].names
  {
    FilesAreComplete(pkgs, w);
    FilesAreComplete(pkgs', w');
    NamesAreDetermined(DirsOf(w), DirsOf(w'));
    forall i | 0 <= i < |w| ensures w[i].dir == w'[i].dir && w[i].names == w'[i].names {
      assert DirsOf(w)[i] == DirsOf(w')[i];
      NamesAreDetermined(w[i].names, w'[i].names);
    }
  }

  // ---------------------------------------------------------------- rearranging

  /** Another order of the packages, of the files of package i with their
      directories, or of the declarations of its file j. */
  datatype Rearrangement =
    | Packages(to: seq<Package>)
    | Files(i: nat, files: seq<Node>, dirs: seq<string>)
    | Declarations(i: nat, j: nat, decls: seq<Node>)

  /** All files of a Go package are in one directory. */
  predicate OneDir(dirs: seq<string>) {
    forall i :: 0 <= i < |dirs| ==> dirs[i] == dirs[0]
  }

  lemma SameDirs(dirs: seq<string>, dirs': seq<string>)
    requires OneDir(dirs) && multiset(dirs) == multiset(dirs')
    ensures dirs == dirs'
  {
    assert |dirs| == |multiset(dirs)| == |multiset(dirs')| == |dirs'|;
    forall i | 0 <= i < |dirs'| ensures dirs'[i] == dirs[i] {
      assert dirs'[i] in multiset(dirs);
    }
  }

  ghost predicate Legal(pkgs: seq<Package>, r: Rearrangement) {
    match r
    case Packages(to) => multiset(to) == multiset(pkgs)
    case Files(i, files, dirs) =>
      && i < |pkgs| && multiset(files) == multiset(pkgs[i].syntax)
      && (dirs == pkgs[i].dirs || (OneDir(pkgs[i].dirs) && multiset(dirs) == multiset(pkgs[i].dirs)))
    case Declarations(i, j, decls) =>
      && i < |pkgs| && j < |pkgs[i].syntax| && pkgs[i].syntax[j].Other?
      && multiset(decls) == multiset(pkgs[i].syntax[j].parts)
  }

  ghost function Rearrange(pkgs: seq<Package>, r: Rearrangement): seq<Package>
    requires Legal(pkgs, r)
  {
    match r
    case Packages(to) => to
    case Files(i, files, dirs) => pkgs[i := pkgs[i].(syntax := files, dirs := dirs)]
    case Declarations(i, j, decls) => pkgs[i := pkgs[i].(syntax := pkgs[i].syntax[j := Other(decls)])]
  }

  ghost predicate AllLegal(pkgs: seq<Package>, rs: seq<Rearrangement>)
    decreases |rs|
  {
    rs == [] || (Legal(pkgs, rs[0]) && AllLegal(Rearrange(pkgs, rs[0]), rs[1..]))
  }

  ghost function Rearranged(pkgs: seq<Package>, rs: seq<Rearrangement>): seq<Package>
    requires AllLegal(pkgs, rs)
    decreases |rs|
  {
    if rs == [] then pkgs else Rearranged(Rearrange(pkgs, rs[0]), rs[1..])
  }

  ghost predicate SameMarks(p: Package, q: Package) {
    p.name == q.name && forall d, x :: MarkedIn(p, d, x) <==> MarkedIn(q, d, x)
  }

  /** Each package of qs has one in ps that marks the same. */
  ghost predicate Covers(ps: seq<Package>, qs: seq<Package>) {
    forall q :: q in qs ==> exists p :: p in ps && SameMarks(p, q)
  }

  lemma CoversIsTransitive(ps: seq<Package>, qs: seq<Package>, rs: seq<Package>)
    requires Covers(ps, qs) && Covers(qs, rs)
    ensures Covers(ps, rs)
  {
    forall r | r in rs ensures exists p :: p in ps && SameMarks(p, r) {
      var q :| q in qs && SameMarks(q, r);
      var p :| p in ps && SameMarks(p, q);
      assert SameMarks(p, r);
    }
  }

  lemma SamePackagesCover(ps: seq<Package>, qs: seq<Package>)
    requires multiset(ps) == multiset(qs)
    ensures Covers(ps, qs)
  {
    forall q | q in qs ensures exists p :: p in ps && SameMarks(p, q) {
      assert q in multiset(ps);
      assert SameMarks(q, q);
    }
  }

  lemma OnePackageCovers(ps: seq<Package>, i: nat, p: Package)
    requires i < |ps| && SameMarks(ps[i], p)
    ensures Covers(ps, ps[i := p]) && Covers(ps[i := p], ps)
  {
    var qs := ps[i := p];
    forall q | q in qs ensures exists o :: o in ps && SameMarks(o, q) {
      var k :| 0 <= k < |qs| && qs[k] == q;
      assert SameMarks(ps[k], q);
    }
    forall q | q in ps ensures exists o :: o in qs && SameMarks(o, q) {
      var k :| 0 <= k < |ps| && ps[k] == q;
      assert SameMarks(qs[k], q);
    }
  }

  lemma SameFilesDeclare(fs: seq<Node>, gs: seq<Node>, x: string)
    requires multiset(fs) == multiset(gs) && AnyDeclares(fs, x)
    ensures AnyDeclares(gs, x)
  {
    var f :| f in fs && Declares(f, x);
    assert f in multiset(gs);
  }

  lemma SameDeclarationsDeclare(ds: seq<Node>, es: seq<Node>, x: string)
    requires multiset(ds) == multiset(es) && Declares(Other(ds), x)
    ensures Declares(Other(es), x)
  {
    var path :| At(Other(ds), path).Some? && DeclaresHere(At(Other(ds), path).value, x);
    assert path != [] && AtAll(ds, path).Some?;
    var d := ds[path[0]];
    assert d in multiset(es);
    var k :| 0 <= k < |es| && es[k] == d;
    var path' := [k] + path[1..];
    assert path'[1..] == path[1..];
    assert At(Other(es), path') == At(Other(ds), path);
  }

  lemma OneFileDeclares(fs: seq<Node>, j: nat, f: Node, x: string)
    requires j < |fs| && (Declares(fs[j], x) <==> Declares(f, x))
    ensures AnyDeclares(fs, x) <==> AnyDeclares(fs[j := f], x)
  {
    var gs := fs[j := f];
    if AnyDeclares(fs, x) {
      var g :| g in fs && Declares(g, x);
      var k :| 0 <= k < |fs| && fs[k] == g;
      assert gs[k] in gs && Declares(gs[k], x);
    }
    if AnyDeclares(gs, x) {
      var g :| g in gs && Declares(g, x);
      var k :| 0 <= k < |gs| && gs[k] == g;
      assert fs[k] in fs && Declares(fs[k], x);
    }
  }

  lemma SameSyntaxMarks(p: Package, files: seq<Node>)
    requires (p.syntax == []) == (files == [])
    requires forall x :: AnyDeclares(p.syntax, x) <==> AnyDeclares(files, x)
    ensures SameMarks(p, p.(syntax := files))
  {
  }

  lemma RearrangementCovers(pkgs: seq<Package>, r: Rearrangement)
    requires Legal(pkgs, r)
    ensures Covers(pkgs, Rearrange(pkgs, r)) && Covers(Rearrange(pkgs, r), pkgs)
  {
    match r
    case Packages(to) =>
      SamePackagesCover(pkgs, to);
      SamePackagesCover(to, pkgs);
    case Files(i, files, dirs) =>
      if dirs != pkgs[i].dirs { SameDirs(pkgs[i].dirs, dirs); }
      var p := pkgs[i];
      assert |files| == |multiset(files)| == |multiset(p.syntax)| == |p.syntax|;
      forall x ensures AnyDeclares(p.syntax, x) <==> AnyDeclares(files, x) {
        if AnyDeclares(p.syntax, x) { SameFilesDeclare(p.syntax, files, x); }
        if AnyDeclares(files, x) { SameFilesDeclare(files, p.syntax, x); }
      }
      SameSyntaxMarks(p, files);
      OnePackageCovers(pkgs, i, p.(syntax := files));
    case Declarations(i, j, decls) =>
      var p := pkgs[i];
      var files := p.syntax[j := Other(decls)];
      forall x ensures AnyDeclares(p.syntax, x) <==> AnyDeclares(files, x) {
        if Declares(p.syntax[j], x) { SameDeclarationsDeclare(p.syntax[j].parts, decls, x); }
        if Declares(Other(decls), x) { SameDeclarationsDeclare(decls, p.syntax[j].parts, x); }
        OneFileDeclares(p.syntax, j, Other(decls), x);
      }
      SameSyntaxMarks(p, files);
      OnePackageCovers(pkgs, i, p.(syntax := files));
  }

  lemma {:induction false} RearrangementsCover(pkgs: seq<Package>, rs: seq<Rearrangement>)
    requires AllLegal(pkgs, rs)
    ensures Covers(pkgs, Rearranged(pkgs, rs)) && Covers(Rearranged(pkgs, rs), pkgs)
    decreases |rs|
  {
    if rs == [] {
      SamePackagesCover(pkgs, pkgs);
    } else {
      var next, end := Rearrange(pkgs, rs[0]), Rearranged(pkgs, rs);
      RearrangementCovers(pkgs, rs[0]);
      RearrangementsCover(next, rs[1..]);
      CoversIsTransitive(pkgs, next, end);
      CoversIsTransitive(end, next, pkgs);
    }
  }

  lemma CoversMarks(ps: seq<Package>, qs: seq<Package>, d: string, x: string)
    requires Covers(ps, qs) && Marks(qs, d, x)
    ensures Marks(ps, d, x)
  {
    var q :| q in qs && MarkedIn(q, d, x);
    var p :| p in ps && SameMarks(p, q);
    assert MarkedIn(p, d, x);
  }

  /** However the packages, their files and their declarations are rearranged,
      the same files list the same names. */
  lemma OutputIsCanonical(pkgs: seq<Package>, rs: seq<Rearrangement>, w: seq<File>, w': seq<File>)
    requires AllLegal(pkgs, rs) && IsOutput(pkgs, w) && IsOutput(Rearranged(pkgs, rs), w')
    ensures |w| == |w'| && forall i :: 0 <= i < |w| ==> w[i].dir == w'[i].dir && w[i].names == w'[i].names
  {
    var pkgs' := Rearranged(pkgs, rs);
    RearrangementsCover(pkgs, rs);
    forall d, x ensures Marks(pkgs, d, x) <==> Marks(pkgs', d, x) {
      if Marks(pkgs, d, x) { CoversMarks(pkgs', pkgs, d, x); }
      if Marks(pkgs', d, x) { CoversMarks(pkgs, pkgs', d, x); }
    }
    MarksDetermineFiles(pkgs, pkgs', w, w');
  }

  // ---------------------------------------------------------------- the package clause

  ghost predicate Contributes(p: Package, dir: string) {
    exists x :: MarkedIn(p, dir, x)
  }

  /** All packages that contribute to a directory have one name. */
  ghost predicate OneName(pkgs: seq<Package>) {
    forall p, q, d :: p in pkgs && q in pkgs && Contributes(p, d) && Contributes(q, d) ==> p.name == q.name
  }

  /** The package clause is the name of the first package that contributes. */
  lemma {:induction false} ClauseIsTheFirst(pkgs: seq<Package>, dir: string) returns (i: nat)
    requires dir in Collected(pkgs)
    ensures i < |pkgs| && Contributes(pkgs[i], dir) && pkgs[i].name == Collected(pkgs)[dir].pkgName
    ensures forall j :: 0 <= j < i ==> !Contributes(pkgs[j], dir)
  {
    var front, p := pkgs[..|pkgs| - 1], pkgs[|pkgs| - 1];
    if dir in Collected(front) {
      i := ClauseIsTheFirst(front, dir);
      assert forall j :: 0 <= j < |front| ==> front[j] == pkgs[j];
    } else {
      PackageMembers(p, dir, PackageTargets(p)[0]);
      i := |front|;
      forall j | 0 <= j < i ensures !Contributes(pkgs[j], dir) {
        NotCollected(front, dir, j);
      }
    }
  }

  lemma NotCollected(pkgs: seq<Package>, dir: string, j: nat)
    requires dir !in Collected(pkgs) && j < |pkgs|
    ensures !Contributes(pkgs[j], dir)
  {
    if x :| MarkedIn(pkgs[j], dir, x) {
      assert Marks(pkgs, dir, x);
      CollectedMembers(pkgs, dir, x);
    }
  }

  lemma ClauseIsAContributor(pkgs: seq<Package>, dir: string)
    requires dir in Collected(pkgs)
    ensures exists p :: p in pkgs && Contributes(p, dir) && p.name == Collected(pkgs)[dir].pkgName
  {
    var i := ClauseIsTheFirst(pkgs, dir);
    assert pkgs[i] in pkgs;
  }

  lemma ClauseIsTheSame(pkgs: seq<Package>, pkgs': seq<Package>, dir: string)
    requires OneName(pkgs) && Covers(pkgs, pkgs')
    requires dir in Collected(pkgs) && dir in Collected(pkgs')
    ensures Collected(pkgs)[dir].pkgName == Collected(pkgs')[dir].pkgName
  {
    ClauseIsAContributor(pkgs, dir);
    ClauseIsAContributor(pkgs', dir);
    var p :| p in pkgs && Contributes(p, dir) && p.name == Collected(pkgs)[dir].pkgName;
    var q' :| q' in pkgs' && Contributes(q', dir) && q'.name == Collected(pkgs')[dir].pkgName;
    var q :| q in pkgs && SameMarks(q, q');
    var x :| MarkedIn(q', dir, x);
    assert MarkedIn(q, dir, x) && Contributes(q, dir);
  }

  /** Where that name is unique, as Go demands of a directory, the output is the
      same to the letter. */
  lemma OutputIsCanonicalToTheLetter(pkgs: seq<Package>, rs: seq<Rearrangement>, w: seq<File>, w': seq<File>)
    requires AllLegal(pkgs, rs) && IsOutput(pkgs, w) && IsOutput(Rearranged(pkgs, rs), w')
    requires OneName(pkgs)
    ensures w == w'
  {
    OutputIsCanonical(pkgs, rs, w, w');
    RearrangementsCover(pkgs, rs);
    forall i | 0 <= i < |w| ensures w[i] == w'[i] {
      ClauseIsTheSame(pkgs, Rearranged(pkgs, rs), w[i].dir);
    }
  }

  // ---------------------------------------------------------------- in terms of the code

  /** Some comment of the group says generate:reset. */
  ghost predicate Says(doc: Doc) {
    doc.Some? && exists i, before, after ::
      0 <= i < |doc.value| && doc.value[i] == before + "generate:reset" + after
  }

  lemma SaysIsMarked(doc: Doc)
    ensures Says(doc) <==> Marked(doc)
  {
    if Says(doc) {
      var i, before, after :| 0 <= i < |doc.value| && doc.value[i] == before + "generate:reset" + after;
      ContainsMeans(doc.value[i], "generate:reset");
    }
    if Marked(doc) {
      var i :| 0 <= i < |doc.value| && Contains(doc.value[i], MARKER);
      ContainsMeans(doc.value[i], MARKER);
    }
  }

  /** The package path of the generator itself. */
  ghost predicate OfGenerator(path: string) {
    || (exists before, after :: path == before + "/cmd/reset" + after)
    || exists before :: path == before + "cmd/reset"
  }

  lemma GeneratorIsNotScanned(path: string)
    ensures OfGenerator(path) <==> Contains(path, "/cmd/reset") || HasSuffix(path, "cmd/reset")
  {
    ContainsMeans(path, "/cmd/reset");
    if HasSuffix(path, "cmd/reset") {
      assert path == path[..|path| - |"cmd/reset"|] + "cmd/reset";
    }
    if before :| path == before + "cmd/reset" {
      assert path[|before|..] == "cmd/reset";
    }
  }

  /** A package with one file that declares one type: everything a file can be
      written for, or not. */
  function OnePackage(path: string, name: string, dirs: seq<string>, isType: bool, doc: Doc, spec: Node): Package {
    Package(path, name, dirs, [Other([GenDecl(isType, doc, [spec])])])
  }

  /** No declaration is nested in the parts of the type. */
  ghost predicate Flat(spec: Node) {
    forall d :: Occurs(d, spec) ==> !d.GenDecl?
  }

  lemma OnlyOneDeclares(isType: bool, doc: Doc, spec: Node, x: string)
    requires Flat(spec)
    ensures Declares(Other([GenDecl(isType, doc, [spec])]), x) <==> isType && Wanted(spec, doc) && spec.name == x
  {
    var gen := GenDecl(isType, doc, [spec]);
    var file := Other([gen]);
    assert At(file, [0]) == Some(gen) by {
      assert [0][1..] == [];
    }
    if Declares(file, x) {
      var path :| At(file, path).Some? && DeclaresHere(At(file, path).value, x);
      var d := At(file, path).value;
      PlaceOccurs(file, path);
      assert Occurs(d, gen);
      assert d == gen || Occurs(d, spec);
    }
    if isType && Wanted(spec, doc) && spec.name == x {
      assert gen.specs[0] == spec;
      assert DeclaresHere(gen, x);
    }
  }

  /** Its file, which lists that type, is written iff it is a struct type without
      type parameters in a type declaration, marked on the type or on the group, and
      the package is not the generator itself. */
  lemma OneType(path: string, name: string, dirs: seq<string>, isType: bool, doc: Doc,
                t: string, typeDoc: Doc, typeParams: seq<Node>, typ: Node, w: seq<File>)
    requires t != "" && dirs != [] && Flat(TypeSpec(t, typeDoc, typeParams, typ))
    requires IsOutput([OnePackage(path, name, dirs, isType, doc, TypeSpec(t, typeDoc, typeParams, typ))], w)
    ensures
      w == if isType && typ.StructType? && typeParams == [] && (Says(doc) || Says(typeDoc)) && !OfGenerator(path)
           then [File(dirs[0], name, [t])]
           else []
  {
    GeneratorIsNotScanned(path);
    var spec := TypeSpec(t, typeDoc, typeParams, typ);
    var p := OnePackage(path, name, dirs, isType, doc, spec);
    SaysIsMarked(doc);
    SaysIsMarked(typeDoc);
    FilesAreComplete([p], w);
    forall d, x
      ensures Marks([p], d, x) <==> Scanned(p) && d == dirs[0] && isType && Wanted(spec, doc) && x == t
    {
      OnlyOneDeclares(isType, doc, spec, x);
      OneFileDeclaresIt(p.syntax[0], x);
      assert p in [p];
    }
    OneFileWritten(p, spec, doc, isType, w);
  }

  lemma OneFileDeclaresIt(file: Node, x: string)
    ensures AnyDeclares([file], x) <==> Declares(file, x)
  {
    assert file in [file];
  }

  lemma OneFileWritten(p: Package, spec: Node, doc: Doc, isType: bool, w: seq<File>)
    requires p.dirs != [] && spec.TypeSpec? && spec.name != "" && IsOutput([p], w)
    requires forall d, x :: Marks([p], d, x) <==>
      Scanned(p) && d == p.dirs[0] && isType && Wanted(spec, doc) && x == spec.name
    ensures w == if Scanned(p) && isType && Wanted(spec, doc) then [File(p.dirs[0], p.name, [spec.name])] else []
  {
    FilesAreComplete([p], w);
    if Scanned(p) && isType && Wanted(spec, doc) {
      assert Marks([p], p.dirs[0], spec.name);
      NamesAreDetermined(DirsOf(w), [p.dirs[0]]);
      assert DirsOf(w)[0] == w[0].dir;
      NamesAreDetermined(w[0].names, [spec.name]);
      var i := ClauseIsTheFirst([p], p.dirs[0]);
      assert w == [w[0]];
    } else {
      forall d ensures d !in DirsOf(w) {
        assert !SomethingMarked([p], d);
      }
      NamesAreDetermined(DirsOf(w), []);
    }
  }
}
