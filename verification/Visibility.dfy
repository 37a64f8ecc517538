/** Which of several classes of one name a reference in a file can mean. */
module Visibility {
  import opened GraphModel
  import opened LookupIndices
  import opened DottedNames
  import opened Narrowing
  import opened ReferenceEdges

  // ---- in terms of names and imports alone --------------------------------------

  ghost function SourceFile(w: World, ref: RawRef): string {
    if ref.src in w.sc.byId then w.sc.byId[ref.src].file else ""
  }

  /** The full name is the package, a dot and the simple name; "" stands for a name that is not so made up. */
  ghost predicate Owns(pkg: string, n: Node) {
    n.fqn == pkg + "." + n.name || (pkg == "" && forall q :: n.fqn != q + "." + n.name)
  }

  /** How a class can be visible from a file, best first: declared there, imported by full name, by dotted tail, in the
      same package, in a package imported whole, imported by simple name. */
  ghost predicate Sees(im: Imports, file: string, way: int, n: Node) {
    file != "" && match way
      case 0 => n.file == file
      case 1 => file in im.fqns && n.fqn in im.fqns[file]
      case 2 => file in im.tails && exists t :: t in im.tails[file] && Dotted(n.fqn, t)
      case 3 => file in im.packages && im.packages[file] != "" && Owns(im.packages[file], n)
      case 4 => file in im.wildcards && exists p :: p in im.wildcards[file] && Owns(p, n)
      case 5 => file in im.names && n.name in im.names[file]
      case _ => false
  }

  ghost predicate ClassNamed(nodes: seq<Node>, name: string, n: Node) {
    n in nodes && n.tag == "Class" && n.name == name
  }

  /** No class of the name is visible in a better way. */
  ghost predicate MostVisible(nodes: seq<Node>, im: Imports, file: string, name: string, n: Node) {
    && ClassNamed(nodes, name, n)
    && forall m, k :: ClassNamed(nodes, name, m) && Sees(im, file, k, m) ==> exists j :: j <= k && Sees(im, file, j, n)
  }

  ghost predicate OutOfSight(im: Imports, file: string, n: Node) { forall k :: !Sees(im, file, k, n) }

  /** Import tails are last segments. */
  ghost predicate TailsPlain(im: Imports) { forall f, t :: f in im.tails && t in im.tails[f] ==> '.' !in t }

  lemma OwnerBefore(q: string, n: Node)
    requires n.fqn == q + "." + n.name
    ensures OwnerFqn(n) == q
  {
    assert n.fqn == q + ("." + n.name);
    assert n.fqn[|n.fqn| - |n.name| - 1..] == "." + n.name;
  }

  lemma OwnerMakesName(n: Node)
    requires OwnerFqn(n) != ""
    ensures n.fqn == OwnerFqn(n) + "." + n.name
  {
    assert n.fqn == OwnerFqn(n) + n.fqn[|n.fqn| - |n.name| - 1..];
  }

  lemma OwnsIff(pkg: string, n: Node)
    ensures OwnerFqn(n) == pkg <==> Owns(pkg, n)
  {
    forall q | n.fqn == q + "." + n.name ensures OwnerFqn(n) == q { OwnerBefore(q, n); }
    if OwnerFqn(n) != "" { OwnerMakesName(n); }
  }

  /** The tests that the narrowing applies are the six ways. */
  lemma TestsAreWays(im: Imports, file: string, n: Node)
    requires file != "" && TailsPlain(im)
    ensures Sees(im, file, 0, n) <==> InFile(file)(n)
    ensures Sees(im, file, 1, n) <==> FqnIn(At(im.fqns, file))(n)
    ensures Sees(im, file, 2, n) <==> SharesSegment(At(im.tails, file))(n)
    ensures Sees(im, file, 3, n) <==> InPackage(PackageOf(im, file))(n)
    ensures Sees(im, file, 4, n) <==> OwnerIn(At(im.wildcards, file))(n)
    ensures Sees(im, file, 5, n) <==> NameIn(At(im.names, file))(n)
  {
    SegmentsAreDotted(At(im.tails, file), n);
    OwnsIff(PackageOf(im, file), n);
    OwnsIff(OwnerFqn(n), n);
    forall p | p in At(im.wildcards, file) && Owns(p, n) ensures p == OwnerFqn(n) { OwnsIff(p, n); }
  }

  lemma SegmentsAreDotted(tails: set<string>, n: Node)
    requires forall t :: t in tails ==> '.' !in t
    ensures SharesSegment(tails)(n) <==> exists t :: t in tails && Dotted(n.fqn, t)
  {
    QualifiedHitsAreDotted([n], tails);
    assert n in [n];
    if tails == {} { assert !SharesSegment(tails)(n); }
  }

  // ---- narrowing as a list of tests --------------------------------------------------

  lemma SelectEmpty(xs: seq<Node>, p: Node -> bool)
    ensures Select(xs, p) == [] <==> forall x :: x in xs ==> !p(x)
  {
    SelectNone(xs, p);
    if x :| x in xs && p(x) { assert x in Select(xs, p); }
  }

  // ---- classes ----------------------------------------------------------

  /** The entries that pass the first test some entry passes, or all of them when none passes any. */
  function FirstPassed(pool: seq<Node>, tests: seq<Node -> bool>): seq<Node> {
    if tests == [] then pool
    else if Select(pool, tests[0]) != [] then Select(pool, tests[0])
    else FirstPassed(pool, tests[1..])
  }

  /** The first test a node passes; the number of tests if it passes none. */
  function Rank(tests: seq<Node -> bool>, n: Node): nat {
    if tests == [] || tests[0](n) then 0 else 1 + Rank(tests[1..], n)
  }

  /** No node of the pool has a better rank. */
  ghost predicate Best(tests: seq<Node -> bool>, pool: seq<Node>, n: Node) {
    n in pool && forall m :: m in pool ==> Rank(tests, n) <= Rank(tests, m)
  }

  lemma {:induction false} FirstPassedAreBest(pool: seq<Node>, tests: seq<Node -> bool>)
    ensures forall n :: n in FirstPassed(pool, tests) <==> Best(tests, pool, n)
    ensures FirstPassed(pool, tests) == [] <==> pool == []
    decreases |tests|
  {
    if tests != [] {
      var hits := Select(pool, tests[0]);
      if hits != [] {
        assert hits[0] in hits && Rank(tests, hits[0]) == 0;
      } else {
        SelectEmpty(pool, tests[0]);
        FirstPassedAreBest(pool, tests[1..]);
        forall n ensures n in FirstPassed(pool, tests) <==> Best(tests, pool, n) {
          assert Best(tests[1..], pool, n) <==> Best(tests, pool, n);
        }
      }
    }
  }

  lemma FirstPassedNext(pool: seq<Node>, test: Node -> bool, tests: seq<Node -> bool>)
    ensures FirstPassed(pool, [test] + tests) == if Select(pool, test) != [] then Select(pool, test)
      else FirstPassed(pool, tests)
  {
    assert ([test] + tests)[1..] == tests;
  }

  function InPackage(pkg: string): Node -> bool { (n: Node) => pkg != "" && OwnerFqn(n) == pkg }

  function Sights(im: Imports, file: string): seq<Node -> bool> {
    if file == "" then [] else EarlySights(im, file, LateSights(im, file))
  }

  function EarlySights(im: Imports, file: string, rest: seq<Node -> bool>): seq<Node -> bool> {
    [InFile(file)] + ([FqnIn(At(im.fqns, file))] + ([SharesSegment(At(im.tails, file))] + rest))
  }

  function LateSights(im: Imports, file: string): seq<Node -> bool> {
    [InPackage(PackageOf(im, file))] + ([OwnerIn(At(im.wildcards, file))] + ([NameIn(At(im.names, file))] + []))
  }

  lemma EarlyPassed(im: Imports, file: string, pool: seq<Node>, rest: seq<Node -> bool>)
    ensures FirstPassed(pool, EarlySights(im, file, rest))
         == if Select(pool, InFile(file)) != [] then Select(pool, InFile(file))
            else if Select(pool, FqnIn(At(im.fqns, file))) != [] then Select(pool, FqnIn(At(im.fqns, file)))
            else if QualifiedHits(pool, At(im.tails, file)) != [] then QualifiedHits(pool, At(im.tails, file))
            else FirstPassed(pool, rest)
  {
    var tails := At(im.tails, file);
    FirstPassedNext(pool, InFile(file), [FqnIn(At(im.fqns, file))] + ([SharesSegment(tails)] + rest));
    FirstPassedNext(pool, FqnIn(At(im.fqns, file)), [SharesSegment(tails)] + rest);
    FirstPassedNext(pool, SharesSegment(tails), rest);
    if tails == {} { SelectNone(pool, SharesSegment(tails)); }
  }

  lemma LatePassed(im: Imports, file: string, pool: seq<Node>)
    ensures var pkg, wild := PackageOf(im, file), At(im.wildcards, file);
      FirstPassed(pool, LateSights(im, file))
      == if pkg != "" && Select(pool, OwnerIs(pkg)) != [] then Select(pool, OwnerIs(pkg))
         else if wild != {} && Select(pool, OwnerIn(wild)) != [] then Select(pool, OwnerIn(wild))
         else if Select(pool, NameIn(At(im.names, file))) != [] then Select(pool, NameIn(At(im.names, file))) else pool
  {
    var pkg, wild, names := PackageOf(im, file), At(im.wildcards, file), At(im.names, file);
    FirstPassedNext(pool, InPackage(pkg), [OwnerIn(wild)] + ([NameIn(names)] + []));
    FirstPassedNext(pool, OwnerIn(wild), [NameIn(names)] + []);
    FirstPassedNext(pool, NameIn(names), []);
    if pkg != "" { SelectAgree(pool, InPackage(pkg), OwnerIs(pkg)); } else { SelectNone(pool, InPackage(pkg)); }
    if wild == {} { SelectNone(pool, OwnerIn(wild)); }
  }

  /** Narrowing among the classes of one name is filtering by the first way in which any of them is visible. */
  lemma NarrowingIsFirstPassed(im: Imports, file: string, pool: seq<Node>)
    requires |pool| > 1
    ensures NarrowClassesForRecv(im, pool, file) == FirstPassed(pool, Sights(im, file))
  {
    if file != "" {
      EarlyPassed(im, file, pool, LateSights(im, file));
      LatePassed(im, file, pool);
    }
  }

  /** Narrowing keeps exactly the classes that none of the same name surpasses in visibility. */
  lemma NarrowedAreBest(im: Imports, file: string, pool: seq<Node>)
    ensures forall n :: n in NarrowClassesForRecv(im, pool, file) <==> Best(Sights(im, file), pool, n)
    ensures NarrowClassesForRecv(im, pool, file) == [] <==> pool == []
  {
    if |pool| > 1 {
      NarrowingIsFirstPassed(im, file, pool);
      FirstPassedAreBest(pool, Sights(im, file));
    }
  }

  // ---- the tests in order are the ways in order ------------------------------------------

  lemma RankNext(test: Node -> bool, tests: seq<Node -> bool>, n: Node)
    ensures Rank([test] + tests, n) == if test(n) then 0 else 1 + Rank(tests, n)
  {
    assert ([test] + tests)[1..] == tests;
  }

  lemma EarlyRank(im: Imports, file: string, rest: seq<Node -> bool>, n: Node)
    ensures Rank(EarlySights(im, file, rest), n)
         == if InFile(file)(n) then 0 else if FqnIn(At(im.fqns, file))(n) then 1
            else if SharesSegment(At(im.tails, file))(n) then 2 else 3 + Rank(rest, n)
  {
    var fqns, tails := FqnIn(At(im.fqns, file)), SharesSegment(At(im.tails, file));
    RankNext(InFile(file), [fqns] + ([tails] + rest), n);
    RankNext(fqns, [tails] + rest, n);
    RankNext(tails, rest, n);
  }

  lemma LateRank(im: Imports, file: string, n: Node)
    ensures Rank(LateSights(im, file), n)
         == if InPackage(PackageOf(im, file))(n) then 0 else if OwnerIn(At(im.wildcards, file))(n) then 1
            else if NameIn(At(im.names, file))(n) then 2 else 3
  {
    var pkg, wild, names := InPackage(PackageOf(im, file)), OwnerIn(At(im.wildcards, file)), NameIn(At(im.names, file));
    RankNext(pkg, [wild] + ([names] + []), n);
    RankNext(wild, [names] + [], n);
    RankNext(names, [], n);
  }

  /** The rank of a class is the best way in which it is visible, or 6. */
  lemma RankIsWay(im: Imports, file: string, n: Node)
    requires file != "" && TailsPlain(im)
    ensures var r := Rank(Sights(im, file), n);
      r <= 6 && (r < 6 ==> Sees(im, file, r, n)) && forall j :: j < r ==> !Sees(im, file, j, n)
  {
    TestsAreWays(im, file, n);
    EarlyRank(im, file, LateSights(im, file), n);
    LateRank(im, file, n);
  }

  lemma BestIsVisible(nodes: seq<Node>, im: Imports, file: string, name: string, n: Node)
    requires TailsPlain(im)
    ensures Best(Sights(im, file), Select(nodes, NamedLike({"Class"}, name)), n) <==>
      MostVisible(nodes, im, file, name, n)
  {
    var tests, pool := Sights(im, file), Select(nodes, NamedLike({"Class"}, name));
    if file != "" && Best(tests, pool, n) {
      forall m, k | ClassNamed(nodes, name, m) && Sees(im, file, k, m)
        ensures exists j :: j <= k && Sees(im, file, j, n)
      {
        Surpasses(im, file, n, m, k);
      }
    }
    if file != "" && MostVisible(nodes, im, file, name, n) {
      forall m | m in pool ensures Rank(tests, n) <= Rank(tests, m) {
        AtLeastAsVisible(im, file, n, m);
      }
    }
  }

  lemma Surpasses(im: Imports, file: string, n: Node, m: Node, k: int)
    requires file != "" && TailsPlain(im) && Rank(Sights(im, file), n) <= Rank(Sights(im, file), m)
      && Sees(im, file, k, m)
    ensures exists j :: j <= k && Sees(im, file, j, n)
  {
    RankIsWay(im, file, n);
    RankIsWay(im, file, m);
  }

  lemma AtLeastAsVisible(im: Imports, file: string, n: Node, m: Node)
    requires file != "" && TailsPlain(im)
    requires forall k :: Sees(im, file, k, m) ==> exists j :: j <= k && Sees(im, file, j, n)
    ensures Rank(Sights(im, file), n) <= Rank(Sights(im, file), m)
  {
    RankIsWay(im, file, n);
    RankIsWay(im, file, m);
  }

  /** Narrowing keeps exactly the classes of the name that none of them surpasses in visibility. */
  lemma NarrowedAreVisible(nodes: seq<Node>, im: Imports, file: string, name: string)
    requires TailsPlain(im)
    ensures forall n :: n in NarrowClassesForRecv(im, Select(nodes, NamedLike({"Class"}, name)), file) <==>
      MostVisible(nodes, im, file, name, n)
  {
    NarrowedAreBest(im, file, Select(nodes, NamedLike({"Class"}, name)));
    forall n { BestIsVisible(nodes, im, file, name, n); }
  }

  // ---- the bare-name tier of types ------------------------------------------------------

  /** Every filter comes out empty. */
  predicate NothingSeen(im: Imports, file: string, pool: seq<Node>) {
    DeclaredOrImported(im, pool, file).0 == [] && PackagedOrNamed(im, pool, file).0 == []
  }

  /** No node of the pool passes the test. */
  ghost predicate NonePasses(pool: seq<Node>, test: Node -> bool) { forall m :: m in pool ==> !test(m) }

  lemma EarlySeenIff(im: Imports, file: string, pool: seq<Node>)
    requires file != ""
    ensures DeclaredOrImported(im, pool, file).0 == [] <==>
      && NonePasses(pool, InFile(file)) && NonePasses(pool, FqnIn(At(im.fqns, file)))
      && NonePasses(pool, SharesSegment(At(im.tails, file)))
  {
    SelectEmpty(pool, InFile(file));
    SelectEmpty(pool, FqnIn(At(im.fqns, file)));
    SelectEmpty(pool, SharesSegment(At(im.tails, file)));
  }

  lemma LateSeenIff(im: Imports, file: string, pool: seq<Node>)
    requires file != ""
    ensures PackagedOrNamed(im, pool, file).0 == [] <==>
      && (PackageOf(im, file) != "" ==> NonePasses(pool, OwnerIs(PackageOf(im, file))))
      && (At(im.wildcards, file) != {} ==> NonePasses(pool, OwnerIn(At(im.wildcards, file))))
      && NonePasses(pool, NameIn(At(im.names, file)))
  {
    SelectEmpty(pool, OwnerIs(PackageOf(im, file)));
    SelectEmpty(pool, OwnerIn(At(im.wildcards, file)));
    SelectEmpty(pool, NameIn(At(im.names, file)));
  }

  lemma OutOfSightIff(im: Imports, file: string, n: Node)
    requires file != "" && TailsPlain(im)
    ensures OutOfSight(im, file, n) <==>
      && !InFile(file)(n) && !FqnIn(At(im.fqns, file))(n) && !SharesSegment(At(im.tails, file))(n)
      && !InPackage(PackageOf(im, file))(n) && !OwnerIn(At(im.wildcards, file))(n) && !NameIn(At(im.names, file))(n)
  {
    TestsAreWays(im, file, n);
  }

  lemma SeenIff(im: Imports, file: string, pool: seq<Node>)
    requires file != "" && TailsPlain(im)
    ensures NothingSeen(im, file, pool) <==> forall m :: m in pool ==> OutOfSight(im, file, m)
  {
    EarlySeenIff(im, file, pool);
    LateSeenIff(im, file, pool);
    forall m
      ensures OutOfSight(im, file, m) <==>
        && !InFile(file)(m) && !FqnIn(At(im.fqns, file))(m) && !SharesSegment(At(im.tails, file))(m)
        && !InPackage(PackageOf(im, file))(m) && !OwnerIn(At(im.wildcards, file))(m) && !NameIn(At(im.names, file))(m)
    {
      OutOfSightIff(im, file, m);
    }
  }

  lemma NameIffNothingSeen(sy: Symbols, ref: RawRef)
    ensures var pool := Bucket(sy.ix.classesByName, TailName(ref.targetName));
      var file := FileOf(sy.ix.scopes, ref.src);
      NarrowType(sy, ref).1 == "name" <==> |pool| > 1 && (file == "" || NothingSeen(sy.im, file, pool))
  {
    var pool, file := Bucket(sy.ix.classesByName, TailName(ref.targetName)), FileOf(sy.ix.scopes, ref.src);
    if |pool| > 1 && file != "" {
      NamedWhenUnseen(sy, ref, pool, file);
    }
  }

  lemma NamedWhenUnseen(sy: Symbols, ref: RawRef, pool: seq<Node>, file: string)
    requires pool == Bucket(sy.ix.classesByName, TailName(ref.targetName)) && |pool| > 1
    requires file == FileOf(sy.ix.scopes, ref.src) != ""
    ensures NarrowType(sy, ref).1 == "name" <==> NothingSeen(sy.im, file, pool)
  {
    EarlyOfPool(sy.im, pool, file);
    LateOfPool(sy.im, pool, file);
    NamedWhenBothEmpty(pool, DeclaredOrImported(sy.im, pool, file), PackagedOrNamed(sy.im, pool, file));
  }

  lemma NamedWhenBothEmpty(pool: seq<Node>, early: Hits, late: Hits)
    requires |pool| > 1 && early.1 != "name" && late.1 != "name"
    ensures BestOf(pool, early, late).1 == "name" <==> early.0 == [] && late.0 == []
  {
  }

  /** Types fall to the bare-name tier exactly when several classes bear the name and none is visible. */
  lemma NameTierIff(sy: Symbols, ref: RawRef)
    requires TailsPlain(sy.im)
    ensures var pool := Bucket(sy.ix.classesByName, TailName(ref.targetName));
      var file := FileOf(sy.ix.scopes, ref.src);
      NameTier(NarrowType(sy, ref).1) <==> |pool| > 1 && forall m :: m in pool ==> OutOfSight(sy.im, file, m)
  {
    TypeStrategies(sy, ref);
    NameIffNothingSeen(sy, ref);
    if FileOf(sy.ix.scopes, ref.src) != "" {
      SeenIff(sy.im, FileOf(sy.ix.scopes, ref.src), Bucket(sy.ix.classesByName, TailName(ref.targetName)));
    }
  }

  lemma TypeStrategies(sy: Symbols, ref: RawRef)
    ensures NameTier(NarrowType(sy, ref).1) <==> NarrowType(sy, ref).1 == "name"
  {
    NarrowTypeTiers(sy, ref);
    OneStartsWithName(NarrowType(sy, ref).1);
  }

  lemma OneStartsWithName(strategy: string)
    requires strategy in {"none", "unique", "same_file", "imports_qualified_exact", "imports_qualified", "same_package",
                          "imports_wildcard", "imports", "name"}
    ensures NameTier(strategy) <==> strategy == "name"
  {
    NameTierStarts(strategy);
    assert NameTier("name");
  }
}
