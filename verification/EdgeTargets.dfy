/** What the edges of a reference mean, said of the node list and the containment tree alone. */
module EdgeTargets {
  import opened GraphModel
  import opened LookupIndices
  import opened DottedNames
  import opened Containment
  import opened Narrowing
  import opened ReferenceEdges
  import opened Visibility

  // ---- what a reference is about -----------------------------------------------

  const TYPE_REFS: set<string> := {"EXTENDS", "IMPLEMENTS", "INSTANTIATES", "AUTOWIRED"}
  const FILE_REFS: set<string> := {"RENDERS", "INCLUDES_SCRIPT", "INCLUDES_PAGE"}
  const FIELD_REFS: set<string> := {"READS", "WRITES"}
  const OTHER_WAYS: set<string> := {
    "CALLS", "CALLS_API", "ANNOTATED_WITH", "EMITS_EVENT", "CONSUMES_EVENT", "REQUIRES_AUTH", "ENFORCES_POLICY"}

  /** A class the last segment of the name can mean in the file, none of the name being more visible there. */
  ghost predicate TypeTarget(w: World, ref: RawRef, n: Node) {
    exists t :: IsTail(ref.targetName, t) && MostVisible(w.nodes, w.im, SourceFile(w, ref), t, n)
  }

  /** A page or script of the base name, in a language the edge type allows. */
  function FileFits(cv: Conventions, ref: RawRef): Node -> bool {
    (n: Node) => n.tag == "File" && n.name == ref.targetName
      && (ref.rtype in cv.fileLangs && cv.fileLangs[ref.rtype] != {} ==> n.lang in cv.fileLangs[ref.rtype])
  }

  ghost function FilesFitting(w: World, cv: Conventions, ref: RawRef): seq<Node> {
    Select(w.nodes, FileFits(cv, ref))
  }

  predicate Beside(cv: Conventions, ref: RawRef, n: Node) { cv.dirOf(n.file) == cv.dirOf(ref.refFile) }

  /** With several files to choose from, those beside the referencing one win. */
  ghost predicate FileTarget(w: World, cv: Conventions, ref: RawRef, n: Node) {
    && ref.kindHint == "file" && n in w.nodes && FileFits(cv, ref)(n)
    && (BesideWins(w, cv, ref) ==> Beside(cv, ref, n))
  }

  ghost predicate BesideWins(w: World, cv: Conventions, ref: RawRef) {
    var some := FilesFitting(w, cv, ref);
    |some| > 1 && ref.refFile != "" && exists m :: m in some && Beside(cv, ref, m)
  }

  /** The first class of the full name, or else the classes of the simple one. */
  ghost predicate HandlerTarget(w: World, ref: RawRef, n: Node) {
    var exact := ClassesWithFqn(w, ref.targetName);
    if exact != [] then n == exact[0] else exists t :: IsTail(ref.targetName, t) && ClassNamed(w.nodes, t, n)
  }

  /** A field of the name that the class contains. */
  ghost predicate FieldOf(w: World, cls: string, name: string, n: Node) {
    && n in w.nodes && n.tag == "Field" && n.name == name && n.id in w.sc.parents && w.sc.parents[n.id] == cls
    && cls != "" && cls in w.sc.byId && w.sc.byId[cls].tag == "Class"
  }

  ghost predicate OwnField(w: World, ref: RawRef, n: Node) {
    exists cls :: EnclosingClass(w.sc, ref.src) == Some(cls) && FieldOf(w, cls, ref.targetName, n)
  }

  ghost predicate GlobalOf(w: World, file: string, name: string, n: Node) {
    n in w.nodes && n.tag == "Field" && n.name == name && n.scope == "module" && file != "" && n.file == file
  }

  /** A field of the nearest enclosing class; a module field of the file only if that class has none of the name. */
  ghost predicate FieldTarget(w: World, ref: RawRef, n: Node) {
    || OwnField(w, ref, n)
    || (GlobalOf(w, SourceFile(w, ref), ref.targetName, n) && forall m :: !OwnField(w, ref, m))
  }

  /** The label a kind hint asks for. */
  predicate HintFits(ref: RawRef, n: Node) {
    if ref.kindHint == "type" || ref.kindHint == "import" then n.tag == "Class"
    else ref.kindHint == "call" ==> n.tag == "Function"
  }

  /** A callable of the hinted label, or any callable of the name when none has it. */
  ghost predicate HintedTarget(w: World, ref: RawRef, n: Node) {
    CallableNamed(w.nodes, ref.targetName, n) && (HintFits(ref, n) || NoneFitsHint(w, ref))
  }

  ghost predicate NoneFitsHint(w: World, ref: RawRef) {
    forall m :: CallableNamed(w.nodes, ref.targetName, m) ==> !HintFits(ref, m)
  }

  ghost predicate CallableNamed(nodes: seq<Node>, name: string, n: Node) {
    n in nodes && n.name == name && (n.tag == "Class" || n.tag == "Function")
  }

  /** The nodes a reference that is looked up is about, by its type. */
  ghost predicate Target(w: World, cv: Conventions, ref: RawRef, n: Node) {
    if ref.rtype in TYPE_REFS then TypeTarget(w, ref, n)
    else if ref.rtype in FILE_REFS then FileTarget(w, cv, ref, n)
    else if ref.rtype == "HANDLED_BY" then HandlerTarget(w, ref, n)
    else if ref.rtype in FIELD_REFS then FieldTarget(w, ref, n)
    else HintedTarget(w, ref, n)
  }

  // ---- the table of full names ------------------------------------------------------

  ghost function ClassesWithFqn(w: World, fqn: string): seq<Node> { Select(w.nodes, WithFqn(fqn)) }

  function WithFqn(fqn: string): Node -> bool { (n: Node) => n.tag == "Class" && n.fqn != "" && n.fqn == fqn }

  /** The table of classes by full name: the first of each. */
  ghost predicate FqnTable(table: map<string, Node>, nodes: seq<Node>) {
    forall fqn :: (fqn in table <==> Select(nodes, WithFqn(fqn)) != [])
      && (fqn in table ==> table[fqn] == Select(nodes, WithFqn(fqn))[0])
  }

  lemma FqnTableNext(table: map<string, Node>, ns: seq<Node>, n: Node)
    requires FqnTable(table, ns)
    ensures FqnTable(if n.tag == "Class" && n.fqn != "" && n.fqn !in table then table[n.fqn := n] else table, ns + [n])
  {
    forall fqn
      ensures Select(ns + [n], WithFqn(fqn)) == Select(ns, WithFqn(fqn)) + if WithFqn(fqn)(n) then [n] else []
    {
      OneMoreWithFqn(ns, n, fqn);
    }
  }

  lemma OneMoreWithFqn(ns: seq<Node>, n: Node, fqn: string)
    ensures Select(ns + [n], WithFqn(fqn)) == Select(ns, WithFqn(fqn)) + if WithFqn(fqn)(n) then [n] else []
  {
    SelectConcat(ns, [n], WithFqn(fqn));
  }

  lemma TableWithin(table: map<string, Node>, nodes: seq<Node>)
    requires FqnTable(table, nodes)
    ensures forall fqn :: fqn in table ==> table[fqn].id in IdsOf(nodes)
  {
    forall fqn | fqn in table ensures table[fqn].id in IdsOf(nodes) {
      var hits := Select(nodes, WithFqn(fqn));
      assert hits[0] in hits;
    }
  }

  method ClassesByFqn(nodes: seq<Node>) returns (table: map<string, Node>)
    ensures FqnTable(table, nodes)
  {
    table := map[];
    for i := 0 to |nodes|
      invariant FqnTable(table, nodes[..i])
    {
      var n := nodes[i];
      assert nodes[..i + 1] == nodes[..i] + [n];
      FqnTableNext(table, nodes[..i], n);
      if n.tag == "Class" && n.fqn != "" && n.fqn !in table {
        table := table[n.fqn := n];
      }
    }
    assert nodes[..|nodes|] == nodes;
  }

  // ---- the candidates are the targets -------------------------------------------

  lemma TypesAreTargets(sy: Symbols, nodes: seq<Node>, ref: RawRef)
    requires Built(sy.ix, nodes) && TailsPlain(sy.im)
    ensures forall n :: n in NarrowType(sy, ref).0 <==> TypeTarget(WorldOf(sy, nodes), ref, n)
  {
    var name, file := TailName(ref.targetName), FileOf(sy.ix.scopes, ref.src);
    ReceiversNarrowLikeTypes(sy, ref);
    assert Bucket(sy.ix.classesByName, name) == Select(nodes, NamedLike({"Class"}, name));
    NarrowedAreVisible(nodes, sy.im, file, name);
    forall t | IsTail(ref.targetName, t) ensures t == name { TailIff(ref.targetName, t); }
  }

  /** A preferred part of a list, or the whole of it when the part is empty. */
  lemma Preferred(xs: seq<Node>, p: Node -> bool)
    ensures forall n :: n in (if Select(xs, p) != [] then Select(xs, p) else xs) <==>
      n in xs && (p(n) || forall m :: m in xs ==> !p(m))
  {
    SelectEmpty(xs, p);
  }

  /** The files the resolver chooses from, by the index. */
  function FilesFound(sy: Symbols, cv: Conventions, ref: RawRef): seq<Node> {
    var named := Bucket(sy.ix.filesByBasename, ref.targetName);
    if ref.rtype in cv.fileLangs && cv.fileLangs[ref.rtype] != {} then Select(named, WithLang(cv.fileLangs[ref.rtype]))
      else named
  }

  lemma FoundAreFitting(sy: Symbols, cv: Conventions, nodes: seq<Node>, ref: RawRef)
    requires Built(sy.ix, nodes)
    ensures FilesFound(sy, cv, ref) == FilesFitting(WorldOf(sy, nodes), cv, ref)
  {
    assert Bucket(sy.ix.filesByBasename, ref.targetName) == Select(nodes, NamedLike({"File"}, ref.targetName));
    var langs := if ref.rtype in cv.fileLangs then cv.fileLangs[ref.rtype] else {};
    if langs != {} {
      SelectTwice(nodes, NamedLike({"File"}, ref.targetName), WithLang(langs), FileFits(cv, ref));
    } else {
      SelectAgree(nodes, NamedLike({"File"}, ref.targetName), FileFits(cv, ref));
    }
  }

  lemma FilesAreTargets(sy: Symbols, cv: Conventions, nodes: seq<Node>, ref: RawRef)
    requires Built(sy.ix, nodes) && ref.kindHint == "file"
    ensures forall n :: n in FileHits(sy, cv, ref).0 <==> FileTarget(WorldOf(sy, nodes), cv, ref, n)
  {
    var found, beside := FilesFound(sy, cv, ref), InDir(cv.dirOf, cv.dirOf(ref.refFile));
    FoundAreFitting(sy, cv, nodes, ref);
    Preferred(found, beside);
    forall n ensures n in found <==> n in nodes && FileFits(cv, ref)(n) { }
    assert FileHits(sy, cv, ref).0
      == if |found| > 1 && ref.refFile != "" && Select(found, beside) != [] then Select(found, beside) else found;
  }

  lemma ClassesFiled(ix: Indices, nodes: seq<Node>, name: string, n: Node)
    requires Built(ix, nodes)
    ensures n in Bucket(ix.classesByName, name) <==> ClassNamed(nodes, name, n)
  {
    assert Bucket(ix.classesByName, name) == Select(nodes, NamedLike({"Class"}, name));
  }

  lemma NamedByTail(nodes: seq<Node>, name: string, n: Node)
    ensures (exists t :: IsTail(name, t) && ClassNamed(nodes, t, n)) <==> ClassNamed(nodes, TailName(name), n)
  {
    forall t | IsTail(name, t) ensures t == TailName(name) { TailIff(name, t); }
  }

  lemma HandlersAreTargets(sy: Symbols, cv: Conventions, nodes: seq<Node>, ref: RawRef)
    requires Built(sy.ix, nodes) && FqnTable(cv.classByFqn, nodes)
    ensures forall n :: n in HandlerHits(sy, cv, ref).0 <==> HandlerTarget(WorldOf(sy, nodes), ref, n)
  {
    var w := WorldOf(sy, nodes);
    assert ref.targetName in cv.classByFqn <==> Select(nodes, WithFqn(ref.targetName)) != [];
    forall n ensures n in HandlerHits(sy, cv, ref).0 <==> HandlerTarget(w, ref, n) {
      ClassesFiled(sy.ix, nodes, TailName(ref.targetName), n);
      NamedByTail(nodes, ref.targetName, n);
    }
  }

  lemma OwnFieldsFound(sy: Symbols, nodes: seq<Node>, ref: RawRef, n: Node)
    requires Built(sy.ix, nodes)
    ensures var cls := EnclosingClass(sy.ix.scopes, ref.src);
      OwnField(WorldOf(sy, nodes), ref, n)
      <==> cls.Some? && cls.value != "" && n in Members(sy.ix.fieldsOfClass, (ref.targetName, cls))
  {
    var cls := EnclosingClass(sy.ix.scopes, ref.src);
    if cls.Some? && cls.value != "" { FieldsFiled(sy, nodes, ref.targetName, cls.value, n); }
  }

  lemma FiledAsField(sc: Scopes, name: string, cls: string, n: Node)
    ensures KeyIn(FieldsOfClass, sc, n) == Some((name, Some(cls))) <==>
      && n.tag == "Field" && n.name == name && n.id in sc.parents && sc.parents[n.id] == cls
      && cls != "" && cls in sc.byId && sc.byId[cls].tag == "Class"
  {
  }

  lemma FieldsFiled(sy: Symbols, nodes: seq<Node>, name: string, cls: string, n: Node)
    requires Indexes(sy.ix.fieldsOfClass, FieldsOfClass, sy.ix.scopes, nodes)
    ensures n in Members(sy.ix.fieldsOfClass, (name, Some(cls))) <==> FieldOf(WorldOf(sy, nodes), cls, name, n)
  {
    var key := (name, Some(cls));
    assert Members(sy.ix.fieldsOfClass, key) == Select(nodes, FiledUnder(FieldsOfClass, sy.ix.scopes, key));
    FiledAsField(sy.ix.scopes, name, cls, n);
  }

  lemma GlobalsFound(sy: Symbols, nodes: seq<Node>, ref: RawRef, n: Node)
    requires Built(sy.ix, nodes)
    ensures var file := FileOf(sy.ix.scopes, ref.src);
      GlobalOf(WorldOf(sy, nodes), SourceFile(WorldOf(sy, nodes), ref), ref.targetName, n)
      <==> file != "" && n in Members(sy.ix.fieldsOfFile, (ref.targetName, Some(file)))
  {
    var key := (ref.targetName, Some(FileOf(sy.ix.scopes, ref.src)));
    assert Members(sy.ix.fieldsOfFile, key) == Select(nodes, FiledUnder(FieldsOfFile, sy.ix.scopes, key));
  }

  lemma FieldsAreTargets(sy: Symbols, nodes: seq<Node>, ref: RawRef)
    requires Built(sy.ix, nodes)
    ensures forall n :: n in FieldHits(sy, ref).0 <==> FieldTarget(WorldOf(sy, nodes), ref, n)
  {
    var w, hits := WorldOf(sy, nodes), FieldHits(sy, ref).0;
    var cls := EnclosingClass(sy.ix.scopes, ref.src);
    var own := if cls.Some? && cls.value != "" then Members(sy.ix.fieldsOfClass, (ref.targetName, cls)) else [];
    assert own != [] ==> own[0] in own;
    forall n ensures n in own <==> OwnField(w, ref, n) { OwnFieldsFound(sy, nodes, ref, n); }
    forall n ensures n in hits <==> FieldTarget(w, ref, n) {
      GlobalsFound(sy, nodes, ref, n);
    }
  }

  lemma NamedAreCallable(sy: Symbols, nodes: seq<Node>, name: string, n: Node)
    requires Built(sy.ix, nodes)
    ensures n in Bucket(sy.ix.byName, name) <==> CallableNamed(nodes, name, n)
  {
    assert Bucket(sy.ix.byName, name) == Select(nodes, NamedLike(CALLABLES, name));
  }

  function Hinted(ref: RawRef): Node -> bool { (n: Node) => HintFits(ref, n) }

  lemma HintedHitsPrefer(sy: Symbols, ref: RawRef)
    ensures var named := Bucket(sy.ix.byName, ref.targetName);
      HintedHits(sy, ref) == if Select(named, Hinted(ref)) != [] then Select(named, Hinted(ref)) else named
  {
    var named := Bucket(sy.ix.byName, ref.targetName);
    if ref.kindHint == "type" || ref.kindHint == "import" {
      SelectAgree(named, Tagged("Class"), Hinted(ref));
    } else if ref.kindHint == "call" {
      SelectAgree(named, Tagged("Function"), Hinted(ref));
    } else {
      SelectAll(named, Hinted(ref));
    }
  }

  lemma {:induction false} SelectAll(xs: seq<Node>, p: Node -> bool)
    requires forall x :: x in xs ==> p(x)
    ensures Select(xs, p) == xs
  {
    if xs != [] { SelectAll(xs[1..], p); }
  }

  lemma HintedAreTargets(sy: Symbols, nodes: seq<Node>, ref: RawRef)
    requires Built(sy.ix, nodes)
    ensures forall n :: n in HintedHits(sy, ref) <==> HintedTarget(WorldOf(sy, nodes), ref, n)
  {
    var named := Bucket(sy.ix.byName, ref.targetName);
    forall n ensures n in named <==> CallableNamed(nodes, ref.targetName, n) {
      NamedAreCallable(sy, nodes, ref.targetName, n);
    }
    HintedHitsPrefer(sy, ref);
    Preferred(named, Hinted(ref));
  }

  // ---- the edges -----------------------------------------------------------------

  /** The classes of the last segment, when several bear it and none is visible in the file: more than the cap is cut.
      */
  ghost predicate CutByCap(w: World, cv: Conventions, ref: RawRef) {
    var named := ClassesNamed(w, TailName(ref.targetName));
    && ref.rtype in TYPE_REFS && 0 < cv.cap < |named| && 1 < |named|
    && forall m :: m in named ==> OutOfSight(w.im, SourceFile(w, ref), m)
  }

  ghost predicate Reached(edges: seq<Edge>, id: string) { exists e :: e in edges && e.dst == id }

  ghost predicate SomeTarget(target: Node -> bool, id: string) { exists n :: target(n) && n.id == id }

  /** Edges of the type, from the reference's place, to exactly the targets' ids; of the confidence `alone` if there
      is one edge, ambiguous if there are several; or none at all. */
  ghost predicate LeadTo(ref: RawRef, etype: string, alone: string, target: Node -> bool, cut: bool, edges: seq<Edge>) {
    && (forall e :: e in edges ==> FromRef(ref, etype, if |edges| > 1 then "AMBIGUOUS" else alone, e))
    && (edges != [] ==> forall id :: Reached(edges, id) <==> SomeTarget(target, id))
    && (edges == [] <==> cut || forall n :: !target(n))
  }

  ghost predicate FromRef(ref: RawRef, etype: string, confidence: string, e: Edge) {
    && e.src == ref.src && e.etype == etype && e.confidence == confidence
    && e.evidenceFile == ref.refFile && e.evidenceLine == ref.refLine && e.evidenceCol == ref.refCol
  }

  ghost function HandlerAlone(w: World, ref: RawRef): string {
    if ClassesWithFqn(w, ref.targetName) != [] then "EXTRACTED" else "INFERRED"
  }

  /** The confidence of a lone edge: a handler found by its simple name, and what only a hint decides, are inferred. */
  ghost function Alone(w: World, ref: RawRef): string {
    if ref.rtype in TYPE_REFS || ref.rtype in FILE_REFS || ref.rtype in FIELD_REFS then "EXTRACTED"
    else if ref.rtype == "HANDLED_BY" then HandlerAlone(w, ref)
    else "INFERRED"
  }

  ghost function TargetIn(w: World, cv: Conventions, ref: RawRef): Node -> bool { (n: Node) => Target(w, cv, ref, n) }

  /** The edges lead to exactly what the reference is about, unless the cap cuts it. */
  ghost predicate Leads(w: World, cv: Conventions, ref: RawRef, edges: seq<Edge>) {
    LeadTo(ref, ref.rtype, Alone(w, ref), TargetIn(w, cv, ref), CutByCap(w, cv, ref), edges)
  }

  lemma FanOutReaches(ref: RawRef, hits: seq<Node>, confidence: string, strategy: string, etype: string, id: string)
    ensures Reached(FanOut(ref, hits, confidence, strategy, etype), id) <==> exists n :: n in hits && n.id == id
  {
    var edges := FanOut(ref, hits, confidence, strategy, etype);
    if n :| n in hits && n.id == id {
      var i :| 0 <= i < |hits| && hits[i] == n;
      assert edges[i] in edges;
    }
    if e :| e in edges && e.dst == id {
      var i :| 0 <= i < |edges| && edges[i] == e;
      assert hits[i] in hits;
    }
  }

  lemma FanOutLeads(ref: RawRef, target: Node -> bool, hits: seq<Node>, confidence: string, strategy: string,
                    etype: string, alone: string)
    requires hits != [] && forall n :: n in hits <==> target(n)
    requires confidence == if |hits| > 1 then AMBIGUOUS else alone
    ensures LeadTo(ref, etype, alone, target, false, FanOut(ref, hits, confidence, strategy, etype))
  {
    var edges := FanOut(ref, hits, confidence, strategy, etype);
    forall id ensures Reached(edges, id) <==> SomeTarget(target, id) {
      FanOutReaches(ref, hits, confidence, strategy, etype, id);
    }
    assert target(hits[0]);
  }

  lemma CappedEach(cap: nat, ref: RawRef, target: Node -> bool, hits: seq<Node>, confidence: string, strategy: string,
                   alone: string)
    requires (forall n :: n in hits <==> target(n)) && (|hits| == 1 ==> confidence == alone)
    ensures LeadTo(ref, ref.rtype, alone, target, |hits| > 1 && NameTier(strategy) && 0 < cap < |hits|,
              Capped(cap, ref, hits, confidence, strategy))
  {
    if hits == [] {
      assert Capped(cap, ref, hits, confidence, strategy) == [];
    } else if |hits| > 1 && NameTier(strategy) && 0 < cap < |hits| {
    } else {
      FanOutLeads(ref, target, hits, if |hits| > 1 then AMBIGUOUS else confidence, strategy, ref.rtype, alone);
    }
  }

  /** What the cap cuts of a type reference is its bare-name tier. */
  lemma TypeCutIff(sy: Symbols, cv: Conventions, nodes: seq<Node>, ref: RawRef, h: Hits)
    requires Built(sy.ix, nodes) && TailsPlain(sy.im) && ref.rtype in TYPE_REFS && h == NarrowType(sy, ref)
    ensures |h.0| > 1 && NameTier(h.1) && 0 < cv.cap < |h.0| <==> CutByCap(WorldOf(sy, nodes), cv, ref)
  {
    var name := TailName(ref.targetName);
    NameTierIff(sy, ref);
    NarrowTypeTiers(sy, ref);
    TypeStrategies(sy, ref);
    assert Bucket(sy.ix.classesByName, name) == ClassesNamed(WorldOf(sy, nodes), name);
  }

  lemma LoneTypeConfidence(sy: Symbols, ref: RawRef)
    requires TailsPlain(sy.im)
    ensures var h := NarrowType(sy, ref);
      |h.0| == 1 ==> (if h.1 != "name" && h.1 != "none" then EXTRACTED else INFERRED) == "EXTRACTED"
  {
    NameTierIff(sy, ref);
    NarrowTypeTiers(sy, ref);
    TypeStrategies(sy, ref);
  }

  // ---- each kind of reference ----------------------------------------------------------

  lemma KindsAgree(rtype: string)
    ensures KindOf(rtype) == NamesType <==> rtype in TYPE_REFS
    ensures KindOf(rtype) == NamesFile <==> rtype in FILE_REFS
    ensures KindOf(rtype) == HandledBy <==> rtype == "HANDLED_BY"
    ensures KindOf(rtype) == TouchesField <==> rtype in FIELD_REFS
    ensures KindOf(rtype) == Other <==>
      rtype !in TYPE_REFS && rtype !in FILE_REFS && rtype != "HANDLED_BY" && rtype !in FIELD_REFS
        && rtype !in OTHER_WAYS
  {
  }

  /** What is wanted is what the reference is about. */
  ghost predicate Wants(w: World, cv: Conventions, ref: RawRef, wanted: seq<Node>) {
    forall n :: n in wanted <==> Target(w, cv, ref, n)
  }

  lemma TargetIsType(w: World, cv: Conventions, ref: RawRef, n: Node)
    requires ref.rtype in TYPE_REFS
    ensures Target(w, cv, ref, n) <==> TypeTarget(w, ref, n)
  {
  }

  lemma TargetIsFile(w: World, cv: Conventions, ref: RawRef, n: Node)
    requires ref.rtype in FILE_REFS
    ensures Target(w, cv, ref, n) <==> FileTarget(w, cv, ref, n)
  {
  }

  lemma TargetIsHandler(w: World, cv: Conventions, ref: RawRef, n: Node)
    requires ref.rtype == "HANDLED_BY"
    ensures Target(w, cv, ref, n) <==> HandlerTarget(w, ref, n)
  {
  }

  lemma TargetIsField(w: World, cv: Conventions, ref: RawRef, n: Node)
    requires ref.rtype in FIELD_REFS
    ensures Target(w, cv, ref, n) <==> FieldTarget(w, ref, n)
  {
  }

  lemma TypeWants(sy: Symbols, cv: Conventions, nodes: seq<Node>, ref: RawRef)
    requires Built(sy.ix, nodes) && TailsPlain(sy.im) && ref.rtype in TYPE_REFS
    ensures Wants(WorldOf(sy, nodes), cv, ref, NarrowType(sy, ref).0)
  {
    TypesAreTargets(sy, nodes, ref);
    forall n { TargetIsType(WorldOf(sy, nodes), cv, ref, n); }
  }

  lemma FileWants(sy: Symbols, cv: Conventions, nodes: seq<Node>, ref: RawRef)
    requires Built(sy.ix, nodes) && ref.rtype in FILE_REFS && ref.kindHint == "file"
    ensures Wants(WorldOf(sy, nodes), cv, ref, FileHits(sy, cv, ref).0)
  {
    FilesAreTargets(sy, cv, nodes, ref);
    forall n { TargetIsFile(WorldOf(sy, nodes), cv, ref, n); }
  }

  lemma HandlerWants(sy: Symbols, cv: Conventions, nodes: seq<Node>, ref: RawRef)
    requires Built(sy.ix, nodes) && FqnTable(cv.classByFqn, nodes) && ref.rtype == "HANDLED_BY"
    ensures Wants(WorldOf(sy, nodes), cv, ref, HandlerHits(sy, cv, ref).0)
  {
    HandlersAreTargets(sy, cv, nodes, ref);
    forall n { TargetIsHandler(WorldOf(sy, nodes), cv, ref, n); }
  }

  lemma FieldWants(sy: Symbols, cv: Conventions, nodes: seq<Node>, ref: RawRef)
    requires Built(sy.ix, nodes) && ref.rtype in FIELD_REFS
    ensures Wants(WorldOf(sy, nodes), cv, ref, FieldHits(sy, ref).0)
  {
    FieldsAreTargets(sy, nodes, ref);
    forall n { TargetIsField(WorldOf(sy, nodes), cv, ref, n); }
  }

  lemma HintedWants(sy: Symbols, cv: Conventions, nodes: seq<Node>, ref: RawRef)
    requires Built(sy.ix, nodes) && KindOf(ref.rtype) == Other
    ensures Wants(WorldOf(sy, nodes), cv, ref, HintedHits(sy, ref))
  {
    KindsAgree(ref.rtype);
    HintedAreTargets(sy, nodes, ref);
  }

  lemma WantedLead(w: World, cv: Conventions, ref: RawRef, hits: seq<Node>, confidence: string, strategy: string)
    requires Wants(w, cv, ref, hits) && (|hits| == 1 ==> confidence == Alone(w, ref))
    requires |hits| > 1 && NameTier(strategy) && 0 < cv.cap < |hits| <==> CutByCap(w, cv, ref)
    ensures Leads(w, cv, ref, Capped(cv.cap, ref, hits, confidence, strategy))
  {
    CappedEach(cv.cap, ref, TargetIn(w, cv, ref), hits, confidence, strategy, Alone(w, ref));
  }

  lemma TypeEdgesLead(sy: Symbols, cv: Conventions, nodes: seq<Node>, ref: RawRef)
    requires Built(sy.ix, nodes) && TailsPlain(sy.im) && ref.rtype in TYPE_REFS
    ensures Leads(WorldOf(sy, nodes), cv, ref, TypeEdges(sy, cv, ref))
  {
    var h := NarrowType(sy, ref);
    TypeWants(sy, cv, nodes, ref);
    TypeCutIff(sy, cv, nodes, ref, h);
    LoneTypeConfidence(sy, ref);
    WantedLead(WorldOf(sy, nodes), cv, ref, h.0, if h.1 != "name" && h.1 != "none" then EXTRACTED else INFERRED, h.1);
  }

  /** The strategies of the other kinds are not cut. */
  lemma NotCut(w: World, cv: Conventions, ref: RawRef, strategy: string)
    requires ref.rtype !in TYPE_REFS
    requires strategy in {"file_same_dir", "file_basename", "handler_fqn", "handler_name", "same_scope",
                          "same_file_global", "kind_hint"}
    ensures !NameTier(strategy) && !CutByCap(w, cv, ref)
  {
    NameTierStarts(strategy);
  }

  lemma NoFileWanted(w: World, cv: Conventions, ref: RawRef)
    requires ref.rtype in FILE_REFS && ref.kindHint != "file"
    ensures Wants(w, cv, ref, []) && !CutByCap(w, cv, ref)
  {
    forall n { TargetIsFile(w, cv, ref, n); }
  }

  lemma FileStrategies(sy: Symbols, cv: Conventions, ref: RawRef)
    ensures FileHits(sy, cv, ref).1 in {"file_same_dir", "file_basename"}
  {
  }

  lemma FileAlone(w: World, ref: RawRef)
    requires ref.rtype in FILE_REFS
    ensures Alone(w, ref) == EXTRACTED && ref.rtype !in TYPE_REFS
  {
  }

  lemma FileEdgesLead(sy: Symbols, cv: Conventions, nodes: seq<Node>, ref: RawRef)
    requires Built(sy.ix, nodes) && ref.rtype in FILE_REFS
    ensures Leads(WorldOf(sy, nodes), cv, ref, FileEdges(sy, cv, ref))
  {
    if ref.kindHint == "file" {
      var h := FileHits(sy, cv, ref);
      FileWants(sy, cv, nodes, ref);
      FileStrategies(sy, cv, ref);
      FileAlone(WorldOf(sy, nodes), ref);
      NotCut(WorldOf(sy, nodes), cv, ref, h.1);
      WantedLead(WorldOf(sy, nodes), cv, ref, h.0, EXTRACTED, h.1);
    } else {
      NoFileWanted(WorldOf(sy, nodes), cv, ref);
      WantedLead(WorldOf(sy, nodes), cv, ref, [], EXTRACTED, "");
    }
  }

  lemma HandlerConfidence(cv: Conventions, w: World, ref: RawRef)
    requires FqnTable(cv.classByFqn, w.nodes) && ref.rtype == "HANDLED_BY"
    ensures (if ref.targetName in cv.classByFqn then EXTRACTED else INFERRED) == Alone(w, ref)
  {
    assert ref.targetName in cv.classByFqn <==> Select(w.nodes, WithFqn(ref.targetName)) != [];
  }

  lemma HandlerEdgesLead(sy: Symbols, cv: Conventions, nodes: seq<Node>, ref: RawRef)
    requires Built(sy.ix, nodes) && FqnTable(cv.classByFqn, nodes) && ref.rtype == "HANDLED_BY"
    ensures Leads(WorldOf(sy, nodes), cv, ref, HandlerEdges(sy, cv, ref))
  {
    var h := HandlerHits(sy, cv, ref);
    HandlerWants(sy, cv, nodes, ref);
    HandlerConfidence(cv, WorldOf(sy, nodes), ref);
    NotCut(WorldOf(sy, nodes), cv, ref, h.1);
    WantedLead(WorldOf(sy, nodes), cv, ref, h.0, if ref.targetName in cv.classByFqn then EXTRACTED else INFERRED, h.1);
  }

  lemma FieldStrategies(sy: Symbols, ref: RawRef)
    ensures FieldHits(sy, ref).1 in {"same_scope", "same_file_global"}
  {
  }

  lemma FieldAlone(w: World, ref: RawRef)
    requires ref.rtype in FIELD_REFS
    ensures Alone(w, ref) == EXTRACTED && ref.rtype !in TYPE_REFS
  {
  }

  lemma FieldEdgesLead(sy: Symbols, cv: Conventions, nodes: seq<Node>, ref: RawRef)
    requires Built(sy.ix, nodes) && ref.rtype in FIELD_REFS
    ensures Leads(WorldOf(sy, nodes), cv, ref, FieldEdges(sy, cv, ref))
  {
    var h := FieldHits(sy, ref);
    FieldWants(sy, cv, nodes, ref);
    FieldStrategies(sy, ref);
    FieldAlone(WorldOf(sy, nodes), ref);
    NotCut(WorldOf(sy, nodes), cv, ref, h.1);
    WantedLead(WorldOf(sy, nodes), cv, ref, h.0, EXTRACTED, h.1);
  }

  lemma HintedAlone(w: World, ref: RawRef)
    requires KindOf(ref.rtype) == Other
    ensures Alone(w, ref) == INFERRED && ref.rtype !in TYPE_REFS
  {
    KindsAgree(ref.rtype);
  }

  lemma HintedEdgesLead(sy: Symbols, cv: Conventions, nodes: seq<Node>, ref: RawRef)
    requires Built(sy.ix, nodes) && KindOf(ref.rtype) == Other
    ensures Leads(WorldOf(sy, nodes), cv, ref, HintedEdges(sy, cv, ref))
  {
    HintedWants(sy, cv, nodes, ref);
    HintedAlone(WorldOf(sy, nodes), ref);
    NotCut(WorldOf(sy, nodes), cv, ref, "kind_hint");
    WantedLead(WorldOf(sy, nodes), cv, ref, HintedHits(sy, ref), INFERRED, "kind_hint");
  }

  lemma LeadsAlike(ref: RawRef, etype: string, alone: string, a: Node -> bool, b: Node -> bool, cut: bool,
                   edges: seq<Edge>)
    requires LeadTo(ref, etype, alone, a, cut, edges) && forall n :: a(n) <==> b(n)
    ensures LeadTo(ref, etype, alone, b, cut, edges)
  {
    forall id ensures SomeTarget(a, id) <==> SomeTarget(b, id) {
    }
  }

  /**
    * Over every reference that is looked up, and with no index and no test of the resolver in the statement: edges to
    * exactly the nodes the reference is about, ambiguous exactly when there are several, and none exactly when there is
    * no such node or the cap cuts the bare name.
    */
  lemma EdgesMeanTargets(sy: Symbols, cv: Conventions, nodes: seq<Node>, ref: RawRef)
    requires Built(sy.ix, nodes) && FqnTable(cv.classByFqn, nodes) && TailsPlain(sy.im) && ref.rtype !in OTHER_WAYS
    ensures Leads(WorldOf(sy, nodes), cv, ref, EdgesFor(sy, cv, ref))
  {
    KindsAgree(ref.rtype);
    if ref.rtype in TYPE_REFS {
      TypeEdgesLead(sy, cv, nodes, ref);
      TypeKind(sy, cv, ref);
    } else if ref.rtype in FILE_REFS {
      FileEdgesLead(sy, cv, nodes, ref);
      FileKind(sy, cv, ref);
    } else if ref.rtype == "HANDLED_BY" {
      HandlerEdgesLead(sy, cv, nodes, ref);
      HandlerKind(sy, cv, ref);
    } else if ref.rtype in FIELD_REFS {
      FieldEdgesLead(sy, cv, nodes, ref);
      FieldKind(sy, cv, ref);
    } else {
      HintedEdgesLead(sy, cv, nodes, ref);
      HintedKind(sy, cv, ref);
    }
  }
}
