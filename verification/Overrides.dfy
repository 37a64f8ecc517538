/** OVERRIDES edges derived from the class hierarchy by name and arity. */
module Overrides {
  import opened Graphs
  import opened GraphModel
  import opened LookupIndices
  import opened Ancestors

  type Pair = (string, string)

  function PairOf(e: Edge): Pair { (e.src, e.dst) }

  ghost predicate IsMethod(n: Node) { n.tag == "Function" && n.kind == "method" }

  /** `m` is a method contained in the class `cls`. */
  ghost predicate DeclaredIn(sc: Scopes, cls: string, m: Node) {
    && IsMethod(m) && m.id in sc.parents && sc.parents[m.id] == cls
    && cls != "" && cls in sc.byId && sc.byId[cls].tag == "Class"
  }

  ghost predicate SameSignature(n: Node, m: Node) { m.id != n.id && m.name == n.name && m.paramCount == n.paramCount }

  /** `m` is a different method with the name and arity of `n`, in a class one or more supertype arcs above the
      container of `n`. */
  ghost predicate OverridesIn(nodes: seq<Node>, sc: Scopes, supers: Hierarchy, n: Node, m: Node) {
    && n in nodes && IsMethod(n) && m in nodes && SameSignature(n, m)
    && n.id in sc.parents
    && exists anc :: DeclaredIn(sc, anc, m) && ReachesAbove(ArcsOf(supers), sc.parents[n.id], anc)
  }

  /** The pairs the derivation must emit. */
  ghost predicate Wanted(nodes: seq<Node>, sc: Scopes, supers: Hierarchy, skipMethods: set<string>,
                         skipPairs: set<Pair>, p: Pair) {
    && p.0 !in skipMethods && p !in skipPairs
    && exists n, m :: OverridesIn(nodes, sc, supers, n, m) && p == (n.id, m.id)
  }

  ghost function PairsOf(out: seq<Edge>): set<Pair> { set e | e in out :: PairOf(e) }

  /** No pair twice. */
  ghost predicate OncePerPair(out: seq<Edge>) {
    forall i, j :: 0 <= i < j < |out| ==> PairOf(out[i]) != PairOf(out[j])
  }

  /** Each pair of `seen` is emitted once, and nothing else is. */
  ghost predicate EmittedOnce(out: seq<Edge>, seen: set<Pair>) {
    OncePerPair(out) && seen == PairsOf(out)
  }

  function OverrideEdge(n: Node, dst: string): Edge {
    Edge("OVERRIDES", n.id, dst, "INFERRED", "hierarchy", n.file, n.startLine, 0)
  }

  /** An inferred OVERRIDES edge that is evident where the method starts. */
  ghost predicate DerivedFrom(n: Node, e: Edge) {
    && e.etype == "OVERRIDES" && e.src == n.id && e.confidence == "INFERRED" && e.strategy == "hierarchy"
    && e.evidenceFile == n.file && e.evidenceLine == n.startLine && e.evidenceCol == 0
  }

  ghost predicate AllDerived(nodes: seq<Node>, out: seq<Edge>) {
    forall e :: e in out ==> exists n :: n in nodes && DerivedFrom(n, e)
  }

  /** The supertype lists of the classes: EXTENDS and IMPLEMENTS edges between class nodes. */
  ghost predicate IsHierarchyOf(supers: Hierarchy, edges: seq<Edge>, byId: map<string, Node>) {
    forall s, d :: (s, d) in ArcsOf(supers) <==> SomeLink(edges, byId, s, d)
  }

  ghost predicate SomeLink(edges: seq<Edge>, byId: map<string, Node>, s: string, d: string) {
    exists e :: e in edges && LinksClasses(byId, e) && e.src == s && e.dst == d
  }

  ghost predicate LinksClasses(byId: map<string, Node>, e: Edge) {
    && (e.etype == "EXTENDS" || e.etype == "IMPLEMENTS")
    && e.src in byId && e.dst in byId && byId[e.src].tag == "Class" && byId[e.dst].tag == "Class"
  }

  lemma HierarchyNext(supers: Hierarchy, edges: seq<Edge>, byId: map<string, Node>, e: Edge)
    requires IsHierarchyOf(supers, edges, byId)
    ensures IsHierarchyOf(if LinksClasses(byId, e) then supers[e.src := Successors(supers, e.src) + [e.dst]]
      else supers,
              edges + [e], byId)
  {
    forall f ensures f in edges + [e] <==> f in edges || f == e { }
  }

  /** The containment map and the hierarchy in one pass over the edges. */
  method IndexEdges(edges: seq<Edge>, byId: map<string, Node>) returns (parents: map<string, string>, supers: Hierarchy)
    ensures parents == Containers(edges) && IsHierarchyOf(supers, edges, byId)
  {
    parents, supers := map[], map[];
    for i := 0 to |edges|
      invariant parents == Containers(edges[..i]) && IsHierarchyOf(supers, edges[..i], byId)
    {
      var e := edges[i];
      assert edges[..i + 1][..i] == edges[..i] && edges[..i + 1] == edges[..i] + [e];
      HierarchyNext(supers, edges[..i], byId, e);
      if e.etype == "CONTAINS" {
        parents := parents[e.dst := e.src];
      } else if (e.etype == "EXTENDS" || e.etype == "IMPLEMENTS") && e.src in byId && e.dst in byId
        && byId[e.src].tag == "Class" && byId[e.dst].tag == "Class" {
        supers := supers[e.src := Successors(supers, e.src) + [e.dst]];
      }
    }
    assert edges[..|edges|] == edges;
  }

  method IndexMethods(nodes: seq<Node>, sc: Scopes) returns (methods: Slots)
    ensures Indexes(methods, MethodsOfClass, sc, nodes)
  {
    methods := map[];
    for i := 0 to |nodes|
      invariant Indexes(methods, MethodsOfClass, sc, nodes[..i])
    {
      assert nodes[..i + 1] == nodes[..i] + [nodes[i]];
      IndexesNext(methods, MethodsOfClass, sc, nodes[..i], nodes[i]);
      var cls := InClass(sc.parents, sc.byId, nodes[i].id);
      if nodes[i].tag == "Function" && nodes[i].kind == "method" && cls.Some? {
        methods := IndexMember(methods, (nodes[i].name, cls), nodes[i]);
      }
    }
    assert nodes[..|nodes|] == nodes;
  }

  ghost function Matches(n: Node, candidates: seq<Node>, skipPairs: set<Pair>): set<Pair> {
    set m | m in candidates && m.id != n.id && m.paramCount == n.paramCount
      && (n.id, m.id) !in skipPairs :: (n.id, m.id)
  }

  method EmitMatches(n: Node, candidates: seq<Node>, skipPairs: set<Pair>, seen: set<Pair>, out: seq<Edge>)
    returns (seen': set<Pair>, out': seq<Edge>)
    requires EmittedOnce(out, seen)
    ensures EmittedOnce(out', seen') && seen' == seen + Matches(n, candidates, skipPairs)
    ensures forall e :: e in out' ==> e in out || DerivedFrom(n, e)
  {
    seen', out' := seen, out;
    for i := 0 to |candidates|
      invariant EmittedOnce(out', seen') && seen' == seen + Matches(n, candidates[..i], skipPairs)
      invariant forall e :: e in out' ==> e in out || DerivedFrom(n, e)
    {
      var m := candidates[i];
      assert candidates[..i + 1] == candidates[..i] + [m];
      if m.id != n.id && m.paramCount == n.paramCount {
        var key := (n.id, m.id);
        if key !in skipPairs && key !in seen' {
          EmitOne(out', seen', OverrideEdge(n, m.id));
          seen' := seen' + {key};
          out' := out' + [OverrideEdge(n, m.id)];
        }
      }
    }
    assert candidates[..|candidates|] == candidates;
  }

  lemma EmitOne(out: seq<Edge>, seen: set<Pair>, e: Edge)
    requires EmittedOnce(out, seen) && PairOf(e) !in seen
    ensures EmittedOnce(out + [e], seen + {PairOf(e)})
  {
    PairsConcat(out, [e]);
    forall i | 0 <= i < |out| ensures PairOf(out[i]) in seen {
      assert out[i] in out;
    }
  }

  lemma PairsConcat(a: seq<Edge>, b: seq<Edge>)
    ensures PairsOf(a + b) == PairsOf(a) + PairsOf(b)
  {
    assert forall e :: e in a + b <==> e in a || e in b;
  }

  /** What the classes of `visited` contribute for `n`. */
  ghost function FromClasses(n: Node, methods: Slots, visited: set<string>, skipPairs: set<Pair>): set<Pair> {
    set c, p | c in visited && p in Matches(n, Members(methods, (n.name, Some(c))), skipPairs) :: p
  }

  lemma FromOneMore(n: Node, methods: Slots, visited: set<string>, anc: string, skipPairs: set<Pair>)
    ensures FromClasses(n, methods, visited + {anc}, skipPairs)
         == FromClasses(n, methods, visited, skipPairs) + Matches(n, Members(methods, (n.name, Some(anc))), skipPairs)
  {
  }

  /** The worklist over the supertypes of `cls`, on a hierarchy that may contain cycles. */
  method WalkUp(n: Node, cls: string, supers: Hierarchy, methods: Slots, skipPairs: set<Pair>, seen: set<Pair>,
                out: seq<Edge>)
    returns (seen': set<Pair>, out': seq<Edge>, ghost visited: set<string>)
    requires EmittedOnce(out, seen)
    ensures EmittedOnce(out', seen')
    ensures forall c :: c in visited <==> ReachesAbove(ArcsOf(supers), cls, c)
    ensures seen' == seen + FromClasses(n, methods, visited, skipPairs)
    ensures forall e :: e in out' ==> e in out || DerivedFrom(n, e)
  {
    seen', out' := seen, out;
    var done: set<string>, stack := {}, Successors(supers, cls);
    visited := {};
    FromStart(supers, cls);
    while stack != []
      invariant visited == done
      invariant EmittedOnce(out', seen') && seen' == seen + FromClasses(n, methods, done, skipPairs)
      invariant Frontier(supers, cls, done, stack)
      invariant forall e :: e in out' ==> e in out || DerivedFrom(n, e)
      decreases |Supertypes(supers) - done|, |stack|
    {
      var anc := stack[|stack| - 1];
      FrontierPop(supers, cls, done, stack);
      stack := stack[..|stack| - 1];
      if anc !in done {
        FewerUnseen(supers, done, anc);
        FromOneMore(n, methods, done, anc, skipPairs);
        done := done + {anc};
        visited := done;
        seen', out' := EmitMatches(n, Members(methods, (n.name, Some(anc))), skipPairs, seen', out');
        stack := stack + Successors(supers, anc);
      }
    }
    ClosedIsAbove(ArcsOf(supers), cls, done);
  }

  /** Everything seen or waiting is above `cls`, and whatever is missing is waiting. */
  ghost predicate Frontier(supers: Hierarchy, cls: string, done: set<string>, stack: seq<string>) {
    var r := ArcsOf(supers);
    && Queueable(supers, stack)
    && (forall c :: c in done || c in stack ==> ReachesAbove(r, cls, c))
    && (forall c :: (cls, c) in r ==> c in done || c in stack)
    && (forall u, w :: u in done && (u, w) in r ==> w in done || w in stack)
  }

  lemma FromStart(supers: Hierarchy, cls: string)
    ensures Frontier(supers, cls, {}, Successors(supers, cls))
  {
    forall c | c in Successors(supers, cls) ensures ReachesAbove(ArcsOf(supers), cls, c) {
      AboveFirst(ArcsOf(supers), cls, c);
    }
  }

  lemma FrontierPop(supers: Hierarchy, cls: string, done: set<string>, stack: seq<string>)
    requires stack != [] && Frontier(supers, cls, done, stack)
    ensures var anc, rest := stack[|stack| - 1], stack[..|stack| - 1];
      if anc in done then Frontier(supers, cls, done, rest)
      else anc in Supertypes(supers) && Frontier(supers, cls, done + {anc}, rest + Successors(supers, anc))
  {
    var anc, rest := stack[|stack| - 1], stack[..|stack| - 1];
    assert stack == rest + [anc];
    forall c | c in Successors(supers, anc) ensures ReachesAbove(ArcsOf(supers), cls, c) {
      AboveNext(ArcsOf(supers), cls, anc, c);
    }
  }

  method DeriveOverrides(nodes: seq<Node>, sc: Scopes, supers: Hierarchy, skipMethods: set<string>,
                         skipPairs: set<Pair>)
    returns (out: seq<Edge>)
    ensures OncePerPair(out) && AllDerived(nodes, out)
    ensures forall p :: p in PairsOf(out) <==> Wanted(nodes, sc, supers, skipMethods, skipPairs, p)
  {
    var methods := IndexMethods(nodes, sc);
    out := [];
    var seen: set<Pair> := {};
    for i := 0 to |nodes|
      invariant EmittedOnce(out, seen) && AllDerived(nodes, out)
      invariant forall p :: p in seen <==> WantedFrom(nodes, nodes[..i], sc, supers, skipMethods, skipPairs, p)
    {
      var n := nodes[i];
      assert nodes[..i + 1] == nodes[..i] + [n];
      ghost var before := seen;
      ghost var added: set<Pair> := {};
      if n.tag == "Function" && n.kind == "method" && n.id !in skipMethods && n.id in sc.parents {
        ghost var visited;
        seen, out, visited := WalkUp(n, sc.parents[n.id], supers, methods, skipPairs, seen, out);
        added := FromClasses(n, methods, visited, skipPairs);
        WalkIsWanted(nodes, sc, supers, methods, skipPairs, n, visited);
      }
      WantedNext(nodes, nodes[..i], n, sc, supers, skipMethods, skipPairs, before, added);
    }
    assert nodes[..|nodes|] == nodes;
  }

  /** The wanted pairs whose source is among `some`. */
  ghost predicate WantedFrom(nodes: seq<Node>, some: seq<Node>, sc: Scopes, supers: Hierarchy,
                             skipMethods: set<string>, skipPairs: set<Pair>, p: Pair) {
    && p.0 !in skipMethods && p !in skipPairs
    && exists n, m :: n in some && OverridesIn(nodes, sc, supers, n, m) && p == (n.id, m.id)
  }

  /** What `n` overrides, apart from the pairs claimed already. */
  ghost predicate WantedOf(nodes: seq<Node>, sc: Scopes, supers: Hierarchy, skipPairs: set<Pair>, n: Node, p: Pair) {
    p !in skipPairs && exists m :: OverridesIn(nodes, sc, supers, n, m) && p == (n.id, m.id)
  }

  /** The classes visited are those above the container of `n`. */
  ghost predicate VisitedAbove(sc: Scopes, supers: Hierarchy, n: Node, visited: set<string>) {
    n.id in sc.parents && forall c :: c in visited <==> ReachesAbove(ArcsOf(supers), sc.parents[n.id], c)
  }

  lemma MethodsOfClassAre(nodes: seq<Node>, sc: Scopes, methods: Slots, name: string, c: string, m: Node)
    requires Indexes(methods, MethodsOfClass, sc, nodes)
    ensures m in Members(methods, (name, Some(c))) <==> m in nodes && m.name == name && DeclaredIn(sc, c, m)
  {
    assert Members(methods, (name, Some(c))) == Select(nodes, FiledUnder(MethodsOfClass, sc, (name, Some(c))));
    assert m in Members(methods, (name, Some(c))) <==> m in nodes && FiledUnder(MethodsOfClass, sc, (name, Some(c)))(m);
  }

  lemma WalkIsSound(nodes: seq<Node>, sc: Scopes, supers: Hierarchy, methods: Slots, skipPairs: set<Pair>, n: Node,
                    visited: set<string>, p: Pair)
    requires n in nodes && IsMethod(n) && VisitedAbove(sc, supers, n, visited)
    requires Indexes(methods, MethodsOfClass, sc, nodes)
    requires p in FromClasses(n, methods, visited, skipPairs)
    ensures WantedOf(nodes, sc, supers, skipPairs, n, p)
  {
    var c :| c in visited && p in Matches(n, Members(methods, (n.name, Some(c))), skipPairs);
    var m :| m in Members(methods, (n.name, Some(c))) && m.id != n.id && m.paramCount == n.paramCount
      && p == (n.id, m.id);
    MatchOverrides(nodes, sc, supers, methods, n, visited, c, m);
  }

  lemma MatchOverrides(nodes: seq<Node>, sc: Scopes, supers: Hierarchy, methods: Slots, n: Node, visited: set<string>,
                       c: string, m: Node)
    requires n in nodes && IsMethod(n) && VisitedAbove(sc, supers, n, visited) && c in visited
    requires Indexes(methods, MethodsOfClass, sc, nodes) && m in Members(methods, (n.name, Some(c)))
    requires m.id != n.id && m.paramCount == n.paramCount
    ensures OverridesIn(nodes, sc, supers, n, m)
  {
    MethodsOfClassAre(nodes, sc, methods, n.name, c, m);
  }

  lemma WalkIsComplete(nodes: seq<Node>, sc: Scopes, supers: Hierarchy, methods: Slots, skipPairs: set<Pair>, n: Node,
                       visited: set<string>, m: Node)
    requires VisitedAbove(sc, supers, n, visited)
    requires Indexes(methods, MethodsOfClass, sc, nodes)
    requires OverridesIn(nodes, sc, supers, n, m) && (n.id, m.id) !in skipPairs
    ensures (n.id, m.id) in FromClasses(n, methods, visited, skipPairs)
  {
    var anc :| DeclaredIn(sc, anc, m) && ReachesAbove(ArcsOf(supers), sc.parents[n.id], anc);
    MethodsOfClassAre(nodes, sc, methods, n.name, anc, m);
    assert (n.id, m.id) in Matches(n, Members(methods, (n.name, Some(anc))), skipPairs);
  }

  lemma WalkIsWanted(nodes: seq<Node>, sc: Scopes, supers: Hierarchy, methods: Slots, skipPairs: set<Pair>, n: Node,
                     visited: set<string>)
    requires n in nodes && IsMethod(n) && VisitedAbove(sc, supers, n, visited)
    requires Indexes(methods, MethodsOfClass, sc, nodes)
    ensures forall p :: p in FromClasses(n, methods, visited, skipPairs) <==>
      WantedOf(nodes, sc, supers, skipPairs, n, p)
  {
    forall p | p in FromClasses(n, methods, visited, skipPairs) ensures WantedOf(nodes, sc, supers, skipPairs, n, p) {
      WalkIsSound(nodes, sc, supers, methods, skipPairs, n, visited, p);
    }
    forall p | WantedOf(nodes, sc, supers, skipPairs, n, p) ensures p in FromClasses(n, methods, visited, skipPairs) {
      var m :| OverridesIn(nodes, sc, supers, n, m) && p == (n.id, m.id);
      WalkIsComplete(nodes, sc, supers, methods, skipPairs, n, visited, m);
    }
  }

  lemma WantedNext(nodes: seq<Node>, some: seq<Node>, n: Node, sc: Scopes, supers: Hierarchy,
                   skipMethods: set<string>, skipPairs: set<Pair>, before: set<Pair>, added: set<Pair>)
    requires forall p :: p in before <==> WantedFrom(nodes, some, sc, supers, skipMethods, skipPairs, p)
    requires forall p :: p in added <==>
      n.id !in skipMethods && WantedOf(nodes, sc, supers, skipPairs, n, p)
    ensures forall p :: p in before + added <==> WantedFrom(nodes, some + [n], sc, supers, skipMethods, skipPairs, p)
  {
    forall p | WantedFrom(nodes, some + [n], sc, supers, skipMethods, skipPairs, p) ensures p in before + added {
      var k, m :| k in some + [n] && OverridesIn(nodes, sc, supers, k, m) && p == (k.id, m.id);
      if k in some { assert WantedFrom(nodes, some, sc, supers, skipMethods, skipPairs, p); }
    }
  }
}
