/** The direct supertypes, collected before any call is resolved. */
module SupertypePass {
  import opened Graphs
  import opened GraphModel
  import opened LookupIndices
  import opened DottedNames
  import opened Containment
  import opened Ancestors
  import opened Narrowing
  import opened Visibility
  import opened EdgeTargets
  import opened ImportTables

  // ---- in terms of edges and references ------------------------------------------

  ghost predicate DrawnBy(edges: seq<Edge>, c: string, d: string) {
    exists e :: e in edges && (e.etype == "EXTENDS" || e.etype == "IMPLEMENTS") && e.src == c && e.dst == d
  }

  /** The class a reference stands in, or the one around an unknown source. */
  ghost predicate StandsIn(sc: Scopes, r: RawRef, c: string) {
    && c in sc.byId && sc.byId[c].tag == "Class"
    && if r.src in sc.byId then c == r.src else EnclosingClass(sc, r.src) == Some(c)
  }

  ghost function TargetOf(w: World, r: RawRef): Node -> bool { (n: Node) => TypeTarget(w, r, n) }

  /** The reference can mean this one class only. */
  ghost predicate MeansOnly(w: World, r: RawRef, d: string) {
    var some := Select(w.nodes, TargetOf(w, r));
    |some| == 1 && some[0].id == d
  }

  ghost predicate NamesSuper(w: World, r: RawRef, c: string, d: string) {
    StandsIn(w.sc, r, c) && MeansOnly(w, r, d) && c != d
  }

  ghost predicate NamedBy(w: World, refs: seq<RawRef>, c: string, d: string) {
    exists r :: r in refs && (r.rtype == "EXTENDS" || r.rtype == "IMPLEMENTS") && NamesSuper(w, r, c, d)
  }

  /** The direct supertypes are those that edges draw, and those that a reference in a class can only mean. */
  ghost predicate SupersOf(supers: Hierarchy, w: World, edges: seq<Edge>, refs: seq<RawRef>) {
    forall c, d :: (c, d) in ArcsOf(supers) <==> DrawnBy(edges, c, d) || NamedBy(w, refs, c, d)
  }

  // ---- narrowing a type selects its targets ---------------------------------------

  lemma {:induction false} FirstPassedSelects(pool: seq<Node>, tests: seq<Node -> bool>, q: Node -> bool)
    requires forall n :: n in pool ==> (q(n) <==> n in FirstPassed(pool, tests))
    ensures FirstPassed(pool, tests) == Select(pool, q)
    decreases |tests|
  {
    if tests == [] {
      SelectAll(pool, q);
    } else if Select(pool, tests[0]) != [] {
      SelectAgree(pool, tests[0], q);
    } else {
      FirstPassedSelects(pool, tests[1..], q);
    }
  }

  lemma NarrowedSelects(im: Imports, file: string, pool: seq<Node>, q: Node -> bool)
    requires forall n :: n in pool ==> (q(n) <==> n in NarrowClassesForRecv(im, pool, file))
    ensures NarrowClassesForRecv(im, pool, file) == Select(pool, q)
  {
    if |pool| > 1 {
      NarrowingIsFirstPassed(im, file, pool);
      FirstPassedSelects(pool, Sights(im, file), q);
    } else {
      SelectAll(pool, q);
    }
  }

  /** The candidates of a type reference are its targets, in the order of the node list. */
  lemma TypesSelected(sy: Symbols, nodes: seq<Node>, r: RawRef)
    requires Built(sy.ix, nodes) && TailsPlain(sy.im)
    ensures NarrowType(sy, r).0 == Select(nodes, TargetOf(WorldOf(sy, nodes), r))
  {
    var q, name := TargetOf(WorldOf(sy, nodes), r), TailName(r.targetName);
    var pool := Select(nodes, NamedLike({"Class"}, name));
    TypesAreTargets(sy, nodes, r);
    ReceiversNarrowLikeTypes(sy, r);
    NarrowTypeKeepsSome(sy, r);
    assert Bucket(sy.ix.classesByName, name) == pool;
    NarrowedSelects(sy.im, FileOf(sy.ix.scopes, r.src), pool, q);
    SelectTwice(nodes, NamedLike({"Class"}, name), q, q);
  }

  // ---- the pass -------------------------------------------------------------------------

  lemma ArcsAppend(supers: Hierarchy, c: string, d: string)
    ensures ArcsOf(supers[c := Successors(supers, c) + [d]]) == ArcsOf(supers) + {(c, d)}
  {
    var next := supers[c := Successors(supers, c) + [d]];
    forall a, b ensures (a, b) in ArcsOf(next) <==> (a, b) in ArcsOf(supers) || (a, b) == (c, d) {
      assert a == c ==> next[a] == Successors(supers, c) + [d];
    }
  }

  lemma OneMoreDrawn(edges: seq<Edge>, e: Edge, c: string, d: string)
    ensures DrawnBy(edges + [e], c, d) <==>
      DrawnBy(edges, c, d) || ((e.etype == "EXTENDS" || e.etype == "IMPLEMENTS") && e.src == c && e.dst == d)
  {
    forall x ensures x in edges + [e] <==> x in edges || x == e { }
  }

  /** The supertypes that edges draw. */
  method DrawnSupers(edges: seq<Edge>) returns (supers: Hierarchy)
    ensures forall c, d :: (c, d) in ArcsOf(supers) <==> DrawnBy(edges, c, d)
  {
    supers := map[];
    for i := 0 to |edges|
      invariant forall c, d :: (c, d) in ArcsOf(supers) <==> DrawnBy(edges[..i], c, d)
    {
      var e := edges[i];
      assert edges[..i + 1] == edges[..i] + [e];
      forall c, d { OneMoreDrawn(edges[..i], e, c, d); }
      if e.etype == "EXTENDS" || e.etype == "IMPLEMENTS" {
        ArcsAppend(supers, e.src, e.dst);
        supers := supers[e.src := Successors(supers, e.src) + [e.dst]];
      }
    }
    assert edges[..|edges|] == edges;
  }

  lemma OneMoreNamed(w: World, refs: seq<RawRef>, r: RawRef, c: string, d: string)
    ensures NamedBy(w, refs + [r], c, d) <==>
      NamedBy(w, refs, c, d) || ((r.rtype == "EXTENDS" || r.rtype == "IMPLEMENTS") && NamesSuper(w, r, c, d))
  {
    forall x ensures x in refs + [r] <==> x in refs || x == r { }
  }

  /** The reference stands in the class, and its one candidate is another. */
  ghost predicate Adds(sc: Scopes, cls: Option<string>, found: seq<Node>, c: string, d: string) {
    && cls == Some(c) && c in sc.byId && sc.byId[c].tag == "Class" && |found| == 1 && found[0].id == d && c != d
  }

  lemma AddsIff(sy: Symbols, nodes: seq<Node>, r: RawRef, cls: Option<string>, found: seq<Node>)
    requires Built(sy.ix, nodes) && TailsPlain(sy.im) && found == NarrowType(sy, r).0
    requires cls == if r.src in sy.ix.scopes.byId then Some(r.src) else EnclosingClass(sy.ix.scopes, r.src)
    ensures forall c, d :: NamesSuper(WorldOf(sy, nodes), r, c, d) <==> Adds(sy.ix.scopes, cls, found, c, d)
  {
    TypesSelected(sy, nodes, r);
  }

  /** A supertype is listed once. */
  method Attach(sc: Scopes, cls: Option<string>, found: seq<Node>, supers: Hierarchy) returns (supers': Hierarchy)
    ensures forall c, d :: (c, d) in ArcsOf(supers') <==> (c, d) in ArcsOf(supers) || Adds(sc, cls, found, c, d)
  {
    supers' := supers;
    if cls.Some? && cls.value in sc.byId && sc.byId[cls.value].tag == "Class" {
      if |found| == 1 && found[0].id != cls.value && found[0].id !in Successors(supers, cls.value) {
        ArcsAppend(supers, cls.value, found[0].id);
        supers' := supers[cls.value := Successors(supers, cls.value) + [found[0].id]];
      }
    }
  }

  /** What one reference adds, if it stands in a class and can mean one other class only. */
  method AddSuper(sy: Symbols, ghost nodes: seq<Node>, r: RawRef, supers: Hierarchy) returns (supers': Hierarchy)
    requires Built(sy.ix, nodes) && TailsPlain(sy.im)
    ensures forall c, d :: (c, d) in ArcsOf(supers') <==>
      (c, d) in ArcsOf(supers) || NamesSuper(WorldOf(sy, nodes), r, c, d)
  {
    var cls := if r.src in sy.ix.scopes.byId then Some(r.src) else EnclosingClass(sy.ix.scopes, r.src);
    var found := NarrowType(sy, r).0;
    AddsIff(sy, nodes, r, cls, found);
    supers' := Attach(sy.ix.scopes, cls, found, supers);
  }

  /** Edges first, then the references that extend or implement something. */
  method DirectSupers(ix: Indices, im: Imports, nodes: seq<Node>, edges: seq<Edge>, refs: seq<RawRef>)
    returns (supers: Hierarchy)
    requires Built(ix, nodes) && TailsPlain(im)
    requires forall r :: r in refs ==> r.rtype == "EXTENDS" || r.rtype == "IMPLEMENTS"
    ensures SupersOf(supers, WorldOf(Symbols(ix, im, map[]), nodes), edges, refs)
  {
    var sy := Symbols(ix, im, map[]);
    ghost var w := WorldOf(sy, nodes);
    supers := DrawnSupers(edges);
    for i := 0 to |refs|
      invariant SupersOf(supers, w, edges, refs[..i])
    {
      assert refs[..i + 1] == refs[..i] + [refs[i]];
      assert refs[i] in refs;
      forall c, d { OneMoreNamed(w, refs[..i], refs[i], c, d); }
      supers := AddSuper(sy, nodes, refs[i], supers);
    }
    assert refs[..|refs|] == refs;
  }

  /** What a reference names does not depend on the supertypes. */
  lemma NamesAlike(w: World, v: World, r: RawRef, c: string, d: string)
    requires w.nodes == v.nodes && w.sc == v.sc && w.im == v.im
    ensures NamesSuper(w, r, c, d) <==> NamesSuper(v, r, c, d)
  {
    forall n ensures TypeTarget(w, r, n) <==> TypeTarget(v, r, n) { }
    SelectAgree(w.nodes, TargetOf(w, r), TargetOf(v, r));
  }

  lemma NamedAlike(w: World, v: World, some: seq<RawRef>, refs: seq<RawRef>, c: string, d: string)
    requires w.nodes == v.nodes && w.sc == v.sc && w.im == v.im && some == Select(refs, NamesSupertype())
    ensures NamedBy(w, some, c, d) <==> NamedBy(v, refs, c, d)
  {
    forall r { NamesAlike(w, v, r, c, d); }
    if r :| r in refs && NamesSupertype()(r) && NamesSuper(v, r, c, d) { assert r in some; }
  }

  /** The import tables and the supertypes, from the references and the nodes. */
  method Prepare(ix: Indices, nodes: seq<Node>, edges: seq<Edge>, refs: seq<RawRef>, packages: map<string, string>)
    returns (sy: Symbols)
    requires Built(ix, nodes)
    ensures sy.ix == ix && sy.im.packages == packages && TablesSay(sy.im, refs) && TailsPlain(sy.im)
    ensures SupersOf(sy.supers, WorldOf(sy, nodes), edges, refs)
  {
    var im, hierarchy := ReadImports(refs, packages);
    var supers := DirectSupers(ix, im, nodes, edges, hierarchy);
    sy := Symbols(ix, im, supers);
    forall c, d {
      NamedAlike(WorldOf(Symbols(ix, im, map[]), nodes), WorldOf(sy, nodes), hierarchy, refs, c, d);
    }
  }
}
