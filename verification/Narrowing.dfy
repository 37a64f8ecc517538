/** Narrowing a call or a type reference to its best candidates. */
module Narrowing {
  import opened GraphModel
  import opened LookupIndices
  import opened DottedNames
  import opened Containment
  import opened Ancestors
  import opened Inheritance

  /** What each file imports, and the package each file declares. */
  datatype Imports = Imports(
    names: map<string, set<string>>, fqns: map<string, set<string>>, tails: map<string, set<string>>,
    wildcards: map<string, set<string>>, packages: map<string, string>)

  datatype Symbols = Symbols(ix: Indices, im: Imports, supers: Hierarchy)

  /** Candidates with the strategy that found them. */
  type Hits = (seq<Node>, string)

  function At(m: map<string, set<string>>, file: string): set<string> { if file in m then m[file] else {} }

  function PackageOf(im: Imports, file: string): string { if file in im.packages then im.packages[file] else "" }

  /** A class's package, or a method's owning class: the name without its last segment. */
  function OwnerFqn(n: Node): string {
    if n.fqn == n.name || |n.fqn| < |n.name| + 1 || n.fqn[|n.fqn| - |n.name| - 1..] != "." + n.name then ""
    else n.fqn[..|n.fqn| - |n.name| - 1]
  }

  function FqnIn(fqns: set<string>): Node -> bool { (n: Node) => n.fqn in fqns }
  function OwnerIn(fqns: set<string>): Node -> bool { (n: Node) => OwnerFqn(n) in fqns }
  function OwnerIs(pkg: string): Node -> bool { (n: Node) => OwnerFqn(n) == pkg }
  function NameIn(names: set<string>): Node -> bool { (n: Node) => n.name in names }
  function NameOrTailIn(names: set<string>): Node -> bool { (n: Node) => n.name in names || TailName(n.fqn) in names }
  function WithArity(k: int): Node -> bool { (n: Node) => n.paramCount == k }

  function ApplyArity(ref: RawRef, candidates: seq<Node>, base: string): Hits {
    if ref.callArity < 0 then (candidates, base)
    else
      var narrowed := Select(candidates, WithArity(ref.callArity));
      if narrowed != [] then (narrowed, base + "+arity") else (candidates, base)
  }

  function FileOf(sc: Scopes, id: string): string { if id in sc.byId then sc.byId[id].file else "" }

  // ---- classes visible from a file ------------------------------------

  function NarrowClassesForRecv(im: Imports, candidates: seq<Node>, srcFile: string): seq<Node> {
    if |candidates| <= 1 || srcFile == "" then candidates else
    var sameFile := Select(candidates, InFile(srcFile));
    if sameFile != [] then sameFile else
    var exact := Select(candidates, FqnIn(At(im.fqns, srcFile)));
    if exact != [] then exact else
    var qualified := QualifiedHits(candidates, At(im.tails, srcFile));
    if qualified != [] then qualified else
    var pkg := PackageOf(im, srcFile);
    var samePkg := if pkg != "" then Select(candidates, OwnerIs(pkg)) else [];
    if samePkg != [] then samePkg else
    var wild := if At(im.wildcards, srcFile) != {} then Select(candidates, OwnerIn(At(im.wildcards, srcFile))) else [];
    if wild != [] then wild else
    var imported := Select(candidates, NameIn(At(im.names, srcFile)));
    if imported != [] then imported else candidates
  }

  function NarrowType(sy: Symbols, ref: RawRef): Hits {
    var pool := Bucket(sy.ix.classesByName, TailName(ref.targetName));
    var file := FileOf(sy.ix.scopes, ref.src);
    BestOf(pool, DeclaredOrImported(sy.im, pool, file), PackagedOrNamed(sy.im, pool, file))
  }

  /** With several classes to choose from, the first tier that has any, and all of them if none has. */
  function BestOf(pool: seq<Node>, early: Hits, late: Hits): Hits {
    if pool == [] then ([], "none")
    else if |pool| == 1 then (pool, "unique")
    else if early.0 != [] then early
    else if late.0 != [] then late else (pool, "name")
  }

  /** In the file itself, or imported by full name or tail. */
  function DeclaredOrImported(im: Imports, pool: seq<Node>, file: string): Hits {
    var sameFile := if file != "" then Select(pool, InFile(file)) else [];
    if sameFile != [] then (sameFile, "same_file") else
    var exact := if file != "" then Select(pool, FqnIn(At(im.fqns, file))) else [];
    if exact != [] then (exact, "imports_qualified_exact") else
    (if file != "" then QualifiedHits(pool, At(im.tails, file)) else [], "imports_qualified")
  }

  /** In the same package, or imported with its package or by simple name. */
  function PackagedOrNamed(im: Imports, pool: seq<Node>, file: string): Hits {
    var pkg := if file != "" then PackageOf(im, file) else "";
    var samePkg := if pkg != "" then Select(pool, OwnerIs(pkg)) else [];
    if samePkg != [] then (samePkg, "same_package") else
    var wpkgs := if file != "" then At(im.wildcards, file) else {};
    var wild := if wpkgs != {} then Select(pool, OwnerIn(wpkgs)) else [];
    if wild != [] then (wild, "imports_wildcard") else
    (if file != "" then Select(pool, NameIn(At(im.names, file))) else [], "imports")
  }

  /** A receiver's class is narrowed exactly as a type reference from the same file would be. */
  lemma ReceiversNarrowLikeTypes(sy: Symbols, ref: RawRef)
    ensures NarrowClassesForRecv(sy.im, Bucket(sy.ix.classesByName, TailName(ref.targetName)),
                                 FileOf(sy.ix.scopes, ref.src))
         == NarrowType(sy, ref).0
  {
    var pool, file := Bucket(sy.ix.classesByName, TailName(ref.targetName)), FileOf(sy.ix.scopes, ref.src);
    if |pool| > 1 { NarrowsAlike(sy.im, pool, file); }
  }

  lemma NarrowsAlike(im: Imports, pool: seq<Node>, file: string)
    requires |pool| > 1
    ensures NarrowClassesForRecv(im, pool, file)
         == if DeclaredOrImported(im, pool, file).0 != [] then DeclaredOrImported(im, pool, file).0
            else if PackagedOrNamed(im, pool, file).0 != [] then PackagedOrNamed(im, pool, file).0 else pool
  {
  }

  lemma EarlyOfPool(im: Imports, pool: seq<Node>, file: string)
    ensures forall n :: n in DeclaredOrImported(im, pool, file).0 ==> n in pool
    ensures DeclaredOrImported(im, pool, file).1 in {"same_file", "imports_qualified_exact", "imports_qualified"}
  {
  }

  lemma LateOfPool(im: Imports, pool: seq<Node>, file: string)
    ensures forall n :: n in PackagedOrNamed(im, pool, file).0 ==> n in pool
    ensures PackagedOrNamed(im, pool, file).1 in {"same_package", "imports_wildcard", "imports"}
  {
  }

  lemma BestOfPool(pool: seq<Node>, early: Hits, late: Hits)
    requires forall n :: n in early.0 || n in late.0 ==> n in pool
    ensures BestOf(pool, early, late).0 == [] <==> pool == []
    ensures forall n :: n in BestOf(pool, early, late).0 ==> n in pool
  {
  }

  lemma BestOfSays(pool: seq<Node>, early: Hits, late: Hits)
    requires early.1 in {"same_file", "imports_qualified_exact", "imports_qualified"}
    requires late.1 in {"same_package", "imports_wildcard", "imports"}
    ensures var got := BestOf(pool, early, late);
      && (pool == [] <==> got.1 == "none") && (got.1 == "name" ==> got.0 == pool)
      && got.1 in {"none", "unique", "same_file", "imports_qualified_exact", "imports_qualified", "same_package",
                   "imports_wildcard", "imports", "name"}
  {
  }

  /** Narrowing keeps at least one candidate and adds none. */
  lemma NarrowTypeKeepsSome(sy: Symbols, ref: RawRef)
    ensures var pool, got := Bucket(sy.ix.classesByName, TailName(ref.targetName)), NarrowType(sy, ref);
      && (got.0 == [] <==> pool == [])
      && (forall n :: n in got.0 ==> n in pool)
  {
    var pool, file := Bucket(sy.ix.classesByName, TailName(ref.targetName)), FileOf(sy.ix.scopes, ref.src);
    EarlyOfPool(sy.im, pool, file);
    LateOfPool(sy.im, pool, file);
    BestOfPool(pool, DeclaredOrImported(sy.im, pool, file), PackagedOrNamed(sy.im, pool, file));
  }

  /** The bare-name tier is the last: it keeps the whole pool. */
  lemma NarrowTypeTiers(sy: Symbols, ref: RawRef)
    ensures var pool, got := Bucket(sy.ix.classesByName, TailName(ref.targetName)), NarrowType(sy, ref);
      && (pool == [] <==> got.1 == "none") && (got.1 == "name" ==> got.0 == pool)
      && got.1 in {"none", "unique", "same_file", "imports_qualified_exact", "imports_qualified", "same_package",
                   "imports_wildcard", "imports", "name"}
  {
    var pool, file := Bucket(sy.ix.classesByName, TailName(ref.targetName)), FileOf(sy.ix.scopes, ref.src);
    EarlyOfPool(sy.im, pool, file);
    LateOfPool(sy.im, pool, file);
    BestOfSays(pool, DeclaredOrImported(sy.im, pool, file), PackagedOrNamed(sy.im, pool, file));
  }

  // ---- calls -----------------------------------------------------------

  function OwnMembers(methods: Slots, classes: seq<Node>, name: string): seq<Node> {
    if classes == [] then []
    else OwnMembers(methods, classes[..|classes| - 1], name) + DeclaredBy(methods, classes[|classes| - 1].id, name)
  }

  function Ids(classes: seq<Node>): seq<string> { seq(|classes|, i requires 0 <= i < |classes| => classes[i].id) }

  predicate IsSelf(recv: string) { recv == "self" || recv == "cls" }

  /** The classes a receiver's class name can mean here. */
  function Visible(sy: Symbols, ref: RawRef, className: string): seq<Node> {
    NarrowClassesForRecv(sy.im, Bucket(sy.ix.classesByName, className), FileOf(sy.ix.scopes, ref.src))
  }

  const NOTHING: Hits := ([], "none")

  function NarrowCall(sy: Symbols, ref: RawRef): Hits {
    var ix, name := sy.ix, ref.targetName;
    if ref.recvType != "" && ref.recvType !in ix.classesByName then ([], "external_receiver") else
    var pool := Pool(ix, name);
    if pool == [] then NOTHING else
    var scoped := ScopedCall(ix, ref);
    if scoped.0 != [] then scoped else
    var imported := ImportedCall(sy, ref, pool, FileOf(ix.scopes, ref.src));
    if imported.0 != [] then imported else
    var received := ReceivedCall(sy, ref);
    if received.0 != [] then received else ApplyArity(ref, pool, "name")
  }

  function ScopedCall(ix: Indices, ref: RawRef): Hits {
    var name := ref.targetName;
    var parent := ParentOf(ix.scopes.parents, ref.src);
    var scoped := if parent.Some? then Probe(ix, ix.byNameParent, name, parent.value) else [];
    if scoped != [] then ApplyArity(ref, scoped, "same_scope") else
    var file := FileOf(ix.scopes, ref.src);
    var sameFile := if file != "" then Probe(ix, ix.byNameFile, name, file) else [];
    if sameFile != [] then ApplyArity(ref, sameFile, "same_file") else NOTHING
  }

  function ImportedCall(sy: Symbols, ref: RawRef, pool: seq<Node>, file: string): Hits {
    if file == "" then NOTHING else
    var exact := Select(pool, OwnerIn(At(sy.im.fqns, file)));
    if exact != [] then ApplyArity(ref, exact, "imports_qualified_exact") else
    var qualified := QualifiedHits(pool, At(sy.im.tails, file));
    if qualified != [] then ApplyArity(ref, qualified, "imports_qualified") else
    var names := At(sy.im.names, file);
    var imported := if names != {} then Select(pool, NameOrTailIn(names)) else [];
    if imported != [] then ApplyArity(ref, imported, "imports") else NOTHING
  }

  function ReceivedCall(sy: Symbols, ref: RawRef): Hits {
    var ix, name := sy.ix, ref.targetName;
    var hinted := if ref.recvType != "" && ref.recvType in ix.classesByName then Visible(sy, ref, ref.recvType) else [];
    var own := OwnMembers(ix.methodsOfClass, hinted, name);
    if own != [] then ApplyArity(ref, own, "receiver_type_hint") else
    var inherited := Inherited(sy.supers, ix.methodsOfClass, Ids(hinted), name);
    if inherited != [] then ApplyArity(ref, inherited, "receiver_type_hint_inherited") else
    var cid := if IsSelf(ref.recv) then EnclosingClass(ix.scopes, ref.src) else None;
    var mine := if cid.Some? then DeclaredBy(ix.methodsOfClass, cid.value, name) else [];
    if mine != [] then ApplyArity(ref, mine, "receiver_type") else
    var mineUp := if cid.Some? then Inherited(sy.supers, ix.methodsOfClass, [cid.value], name) else [];
    if mineUp != [] then ApplyArity(ref, mineUp, "receiver_type_inherited") else
    var named := if ref.recv != "" && !IsSelf(ref.recv) && ref.recv in ix.classesByName then Visible(sy, ref, ref.recv)
      else [];
    var theirs := OwnMembers(ix.methodsOfClass, named, name);
    if theirs != [] then ApplyArity(ref, theirs, "receiver_type") else
    var theirsUp := Inherited(sy.supers, ix.methodsOfClass, Ids(named), name);
    if theirsUp != [] then ApplyArity(ref, theirsUp, "receiver_type_inherited") else NOTHING
  }

  // ---- the reference definition: an ordered list of tiers ---------------

  /** The first tier with a candidate, narrowed by arity. */
  function FirstTier(ref: RawRef, tiers: seq<Hits>): Hits {
    if tiers == [] then NOTHING
    else if tiers[0].0 != [] then ApplyArity(ref, tiers[0].0, tiers[0].1)
    else FirstTier(ref, tiers[1..])
  }

  lemma {:induction false} FirstTierConcat(ref: RawRef, a: seq<Hits>, b: seq<Hits>)
    ensures FirstTier(ref, a + b) == if FirstTier(ref, a).0 != [] then FirstTier(ref, a) else FirstTier(ref, b)
  {
    if a == [] {
      assert a + b == b;
    } else {
      assert (a + b)[1..] == a[1..] + b;
      FirstTierConcat(ref, a[1..], b);
    }
  }

  function When(b: bool, hits: seq<Node>): seq<Node> { if b then hits else [] }

  function ScopeTiers(sc: Scopes, pool: seq<Node>, ref: RawRef): seq<Hits> {
    var file, parent := FileOf(sc, ref.src), ParentOf(sc.parents, ref.src);
    [(When(parent.Some?, Select(pool, ContainedIn(sc, parent.GetOr("")))), "same_scope"),
     (When(file != "", Select(pool, InFile(file))), "same_file")]
  }

  function ImportTiers(im: Imports, pool: seq<Node>, file: string): seq<Hits> {
    [(When(file != "", Select(pool, OwnerIn(At(im.fqns, file)))), "imports_qualified_exact"),
     (When(file != "", QualifiedHits(pool, At(im.tails, file))), "imports_qualified"),
     (When(file != "", Select(pool, NameOrTailIn(At(im.names, file)))), "imports")]
  }

  /** Own members before inherited ones, for each of the three ways a receiver can name its classes. */
  function ReceiverTiers(sy: Symbols, ref: RawRef): seq<Hits> {
    var methods, name := sy.ix.methodsOfClass, ref.targetName;
    var hinted, named := HintedClasses(sy, ref), NamedClasses(sy, ref);
    var self := SelfClass(sy, ref);
    [(OwnMembers(methods, hinted, name), "receiver_type_hint"),
     (Inherited(sy.supers, methods, Ids(hinted), name), "receiver_type_hint_inherited"),
     (When(self.Some?, DeclaredBy(methods, self.GetOr(""), name)), "receiver_type"),
     (When(self.Some?, Inherited(sy.supers, methods, [self.GetOr("")], name)), "receiver_type_inherited"),
     (OwnMembers(methods, named, name), "receiver_type"),
     (Inherited(sy.supers, methods, Ids(named), name), "receiver_type_inherited")]
  }

  function HintedClasses(sy: Symbols, ref: RawRef): seq<Node> {
    When(ref.recvType != "", Visible(sy, ref, ref.recvType))
  }

  function SelfClass(sy: Symbols, ref: RawRef): Option<string> {
    if IsSelf(ref.recv) then EnclosingClass(sy.ix.scopes, ref.src) else None
  }

  function NamedClasses(sy: Symbols, ref: RawRef): seq<Node> {
    When(ref.recv != "" && !IsSelf(ref.recv), Visible(sy, ref, ref.recv))
  }

  lemma FirstTierPair(ref: RawRef, a: Hits, b: Hits)
    ensures FirstTier(ref, [a, b]) == if a.0 != [] then ApplyArity(ref, a.0, a.1)
                                      else if b.0 != [] then ApplyArity(ref, b.0, b.1) else NOTHING
  {
    assert [a, b][1..] == [b] && [b][1..] == [];
    assert FirstTier(ref, [b]) == if b.0 != [] then ApplyArity(ref, b.0, b.1) else NOTHING;
  }

  lemma FirstTierTriple(ref: RawRef, a: Hits, b: Hits, c: Hits)
    ensures FirstTier(ref, [a, b, c]) == if a.0 != [] then ApplyArity(ref, a.0, a.1) else FirstTier(ref, [b, c])
  {
    assert [a, b, c][1..] == [b, c];
  }

  lemma ImportedIsFirstTier(sy: Symbols, ref: RawRef, pool: seq<Node>, file: string)
    ensures ImportedCall(sy, ref, pool, file) == FirstTier(ref, ImportTiers(sy.im, pool, file))
  {
    var t := ImportTiers(sy.im, pool, file);
    FirstTierTriple(ref, t[0], t[1], t[2]);
    FirstTierPair(ref, t[1], t[2]);
    assert At(sy.im.names, file) == {} ==> forall n :: !NameOrTailIn(At(sy.im.names, file))(n);
    SelectNone(pool, NameOrTailIn(At(sy.im.names, file)));
  }

  lemma ReceivedIsFirstTier(sy: Symbols, ref: RawRef)
    ensures ReceivedCall(sy, ref) == FirstTier(ref, ReceiverTiers(sy, ref))
  {
    var t := ReceiverTiers(sy, ref);
    assert t == [t[0], t[1], t[2], t[3], t[4], t[5]];
    FirstTierSix(ref, t[0], t[1], t[2], t[3], t[4], t[5]);
  }

  lemma FirstTierSix(ref: RawRef, a: Hits, b: Hits, c: Hits, d: Hits, e: Hits, f: Hits)
    ensures FirstTier(ref, [a, b, c, d, e, f]) ==
      if a.0 != [] then ApplyArity(ref, a.0, a.1)
      else if b.0 != [] then ApplyArity(ref, b.0, b.1)
      else if c.0 != [] then ApplyArity(ref, c.0, c.1)
      else if d.0 != [] then ApplyArity(ref, d.0, d.1)
      else if e.0 != [] then ApplyArity(ref, e.0, e.1)
      else if f.0 != [] then ApplyArity(ref, f.0, f.1) else NOTHING
  {
    assert [a, b, c, d, e, f] == [a, b] + ([c, d] + [e, f]);
    FirstTierConcat(ref, [a, b], [c, d] + [e, f]);
    FirstTierConcat(ref, [c, d], [e, f]);
    FirstTierPair(ref, a, b);
    FirstTierPair(ref, c, d);
    FirstTierPair(ref, e, f);
  }

  lemma ScopeProbesAreTiers(sy: Symbols, nodes: seq<Node>, ref: RawRef)
    requires Built(sy.ix, nodes)
    ensures ScopedCall(sy.ix, ref) == FirstTier(ref, ScopeTiers(sy.ix.scopes, PoolByScan(nodes, ref.targetName), ref))
  {
    var t := ScopeTiers(sy.ix.scopes, PoolByScan(nodes, ref.targetName), ref);
    FirstTierPair(ref, t[0], t[1]);
    var parent, file := ParentOf(sy.ix.scopes.parents, ref.src), FileOf(sy.ix.scopes, ref.src);
    if parent.Some? { ScopeProbeIsFilter(sy.ix, nodes, ref.targetName, parent.value); }
    if file != "" { FileProbeIsFilter(sy.ix, nodes, ref.targetName, file); }
  }

  // ---- the receiver tiers without an index -----------------------------------

  /** The graph as resolution sees it, with no index over it. */
  datatype World = World(nodes: seq<Node>, sc: Scopes, im: Imports, supers: Hierarchy)

  ghost function WorldOf(sy: Symbols, nodes: seq<Node>): World { World(nodes, sy.ix.scopes, sy.im, sy.supers) }

  /** The methods of a class under a name, among all nodes. */
  ghost function MethodsOf(w: World, cls: string, name: string): seq<Node> {
    Select(w.nodes, FiledUnder(MethodsOfClass, w.sc, (name, Some(cls))))
  }

  ghost function ClassesNamed(w: World, name: string): seq<Node> { Select(w.nodes, NamedLike({"Class"}, name)) }

  ghost function OwnByScan(w: World, classes: seq<Node>, name: string): seq<Node> {
    if classes == [] then []
    else OwnByScan(w, classes[..|classes| - 1], name) + MethodsOf(w, classes[|classes| - 1].id, name)
  }

  /** What the nearest declaring class of a chain declares. */
  ghost function FirstByScan(w: World, chain: seq<string>, name: string): seq<Node> {
    if chain == [] then []
    else if MethodsOf(w, chain[0], name) != [] then MethodsOf(w, chain[0], name)
    else FirstByScan(w, chain[1..], name)
  }

  ghost function InheritedByScan(w: World, ids: seq<string>, name: string): seq<Node> {
    if ids == [] then []
    else InheritedByScan(w, ids[..|ids| - 1], name) + FirstByScan(w, AncestorChain(w.supers, ids[|ids| - 1]), name)
  }

  ghost function VisibleByScan(w: World, ref: RawRef, className: string): seq<Node> {
    NarrowClassesForRecv(w.im, ClassesNamed(w, className), FileOf(w.sc, ref.src))
  }

  ghost function ReceiverTiersByScan(w: World, ref: RawRef): seq<Hits> {
    var name := ref.targetName;
    var hinted := When(ref.recvType != "", VisibleByScan(w, ref, ref.recvType));
    var named := When(ref.recv != "" && !IsSelf(ref.recv), VisibleByScan(w, ref, ref.recv));
    var self := if IsSelf(ref.recv) then EnclosingClass(w.sc, ref.src) else None;
    [(OwnByScan(w, hinted, name), "receiver_type_hint"),
     (InheritedByScan(w, Ids(hinted), name), "receiver_type_hint_inherited"),
     (When(self.Some?, MethodsOf(w, self.GetOr(""), name)), "receiver_type"),
     (When(self.Some?, InheritedByScan(w, [self.GetOr("")], name)), "receiver_type_inherited"),
     (OwnByScan(w, named, name), "receiver_type"),
     (InheritedByScan(w, Ids(named), name), "receiver_type_inherited")]
  }

  lemma MethodsProbed(sy: Symbols, nodes: seq<Node>)
    requires Built(sy.ix, nodes)
    ensures forall cls, name :: DeclaredBy(sy.ix.methodsOfClass, cls, name) == MethodsOf(WorldOf(sy, nodes), cls, name)
  {
    forall cls, name ensures DeclaredBy(sy.ix.methodsOfClass, cls, name) == MethodsOf(WorldOf(sy, nodes), cls, name) {
      assert Members(sy.ix.methodsOfClass, (name, Some(cls)))
        == Select(nodes, FiledUnder(MethodsOfClass, sy.ix.scopes, (name, Some(cls))));
    }
  }

  lemma {:induction false} OwnProbed(sy: Symbols, nodes: seq<Node>, classes: seq<Node>, name: string)
    requires forall cls, k :: DeclaredBy(sy.ix.methodsOfClass, cls, k) == MethodsOf(WorldOf(sy, nodes), cls, k)
    ensures OwnMembers(sy.ix.methodsOfClass, classes, name) == OwnByScan(WorldOf(sy, nodes), classes, name)
  {
    if classes != [] { OwnProbed(sy, nodes, classes[..|classes| - 1], name); }
  }

  lemma {:induction false} FirstProbed(sy: Symbols, nodes: seq<Node>, chain: seq<string>, name: string)
    requires forall cls, k :: DeclaredBy(sy.ix.methodsOfClass, cls, k) == MethodsOf(WorldOf(sy, nodes), cls, k)
    ensures FirstDeclared(sy.ix.methodsOfClass, chain, name) == FirstByScan(WorldOf(sy, nodes), chain, name)
  {
    if chain != [] { FirstProbed(sy, nodes, chain[1..], name); }
  }

  lemma {:induction false} InheritedProbed(sy: Symbols, nodes: seq<Node>, ids: seq<string>, name: string)
    requires forall cls, k :: DeclaredBy(sy.ix.methodsOfClass, cls, k) == MethodsOf(WorldOf(sy, nodes), cls, k)
    ensures Inherited(sy.supers, sy.ix.methodsOfClass, ids, name) == InheritedByScan(WorldOf(sy, nodes), ids, name)
  {
    if ids != [] {
      InheritedProbed(sy, nodes, ids[..|ids| - 1], name);
      FirstProbed(sy, nodes, AncestorChain(sy.supers, ids[|ids| - 1]), name);
    }
  }

  lemma ReceiverProbesAreTiers(sy: Symbols, nodes: seq<Node>, ref: RawRef)
    requires Built(sy.ix, nodes)
    ensures ReceiverTiers(sy, ref) == ReceiverTiersByScan(WorldOf(sy, nodes), ref)
  {
    var name, hinted, named, self := ref.targetName, HintedClasses(sy, ref), NamedClasses(sy, ref), SelfClass(sy, ref);
    assert Bucket(sy.ix.classesByName, ref.recvType) == ClassesNamed(WorldOf(sy, nodes), ref.recvType);
    assert Bucket(sy.ix.classesByName, ref.recv) == ClassesNamed(WorldOf(sy, nodes), ref.recv);
    MethodsProbed(sy, nodes);
    OwnProbed(sy, nodes, hinted, name);
    OwnProbed(sy, nodes, named, name);
    InheritedProbed(sy, nodes, Ids(hinted), name);
    InheritedProbed(sy, nodes, Ids(named), name);
    InheritedProbed(sy, nodes, [self.GetOr("")], name);
  }

  /** The linear reference: every tier filters the whole node list, and the first with a candidate answers. */
  ghost function NarrowCallByScan(w: World, ref: RawRef): Hits {
    var pool := PoolByScan(w.nodes, ref.targetName);
    if ref.recvType != "" && !ClassExists(w.nodes, ref.recvType)
    then ([], "external_receiver")
    else FirstTier(ref, if pool == [] then [] else
      ScopeTiers(w.sc, pool, ref) + (ImportTiers(w.im, pool, FileOf(w.sc, ref.src))
        + (ReceiverTiersByScan(w, ref) + [(pool, "name")])))
  }

  lemma ClassKnown(ix: Indices, nodes: seq<Node>, name: string)
    requires Built(ix, nodes)
    ensures name in ix.classesByName <==> ClassExists(nodes, name)
  {
    var hits := Select(nodes, NamedLike({"Class"}, name));
    assert Bucket(ix.classesByName, name) == hits;
    if name in ix.classesByName { assert hits[0] in hits; }
    if n :| n in nodes && n.tag == "Class" && n.name == name { assert n in hits; }
  }

  lemma Cascade(ref: RawRef, a: seq<Hits>, b: seq<Hits>, c: seq<Hits>, last: Hits)
    requires last.0 != []
    ensures FirstTier(ref, a + (b + (c + [last]))) ==
      if FirstTier(ref, a).0 != [] then FirstTier(ref, a)
      else if FirstTier(ref, b).0 != [] then FirstTier(ref, b)
      else if FirstTier(ref, c).0 != [] then FirstTier(ref, c) else ApplyArity(ref, last.0, last.1)
  {
    FirstTierConcat(ref, a, b + (c + [last]));
    FirstTierConcat(ref, b, c + [last]);
    FirstTierConcat(ref, c, [last]);
  }

  ghost predicate ClassExists(nodes: seq<Node>, name: string) {
    exists n :: n in nodes && n.tag == "Class" && n.name == name
  }

  lemma TiersAssemble(sy: Symbols, nodes: seq<Node>, ref: RawRef)
    requires Pool(sy.ix, ref.targetName) == PoolByScan(nodes, ref.targetName)
    requires ref.recvType in sy.ix.classesByName <==> ClassExists(nodes, ref.recvType)
    requires ScopedCall(sy.ix, ref) == FirstTier(ref, ScopeTiers(sy.ix.scopes, PoolByScan(nodes, ref.targetName), ref))
    requires ReceiverTiers(sy, ref) == ReceiverTiersByScan(WorldOf(sy, nodes), ref)
    ensures NarrowCall(sy, ref) == NarrowCallByScan(WorldOf(sy, nodes), ref)
  {
    var pool, file := PoolByScan(nodes, ref.targetName), FileOf(sy.ix.scopes, ref.src);
    ImportedIsFirstTier(sy, ref, pool, file);
    ReceivedIsFirstTier(sy, ref);
    if pool != [] {
      Cascade(ref, ScopeTiers(sy.ix.scopes, pool, ref), ImportTiers(sy.im, pool, file), ReceiverTiers(sy, ref),
              (pool, "name"));
    }
  }

  /** Probing the indices gives the candidates, order and strategy of the linear reference. */
  lemma NarrowCallRefinesScan(sy: Symbols, nodes: seq<Node>, ref: RawRef)
    requires Built(sy.ix, nodes)
    ensures NarrowCall(sy, ref) == NarrowCallByScan(WorldOf(sy, nodes), ref)
  {
    PoolIsScan(sy.ix, nodes, ref.targetName);
    ClassKnown(sy.ix, nodes, ref.recvType);
    ScopeProbesAreTiers(sy, nodes, ref);
    ReceiverProbesAreTiers(sy, nodes, ref);
    TiersAssemble(sy, nodes, ref);
  }
}
