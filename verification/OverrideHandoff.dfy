/** How the bytecode pass hands the OVERRIDES it proved to the name-and-arity derivation. */
module OverrideHandoff {
  import opened GraphModel
  import opened Graphs
  import opened LookupIndices
  import opened Ancestors
  import opened BytecodeHierarchy
  import opened Overrides
  import opened BytecodeOverrides

  /** What the bytecode pass says before the derivation, frozen as a value. */
  datatype Claims = Claims(authoritative: set<string>, emitted: set<Pair>)

  lemma DisjointEdgesApart(proven: seq<Edge>, derived: seq<Edge>)
    requires OncePerPair(proven) && OncePerPair(derived) && PairsOf(proven) !! PairsOf(derived)
    ensures OncePerPair(proven + derived) && PairsOf(proven + derived) == PairsOf(proven) + PairsOf(derived)
  {
    var all := proven + derived;
    PairsConcat(proven, derived);
    forall i, j | 0 <= i < j < |all| ensures PairOf(all[i]) != PairOf(all[j]) {
      if i < |proven| <= j {
        assert proven[i] in proven && derived[j - |proven|] in derived;
        assert PairOf(proven[i]) in PairsOf(proven) && PairOf(derived[j - |proven|]) in PairsOf(derived);
      }
    }
  }

  /** The derivation on top of the bytecode pass; the two claim sets are dropped once it has run. */
  method DeriveAfterBytecode(report: BytecodeReport, nodes: seq<Node>, sc: Scopes, supers: Hierarchy)
    returns (derived: seq<Edge>)
    modifies report
    ensures OncePerPair(derived) && AllDerived(nodes, derived) && PairsOf(derived) !! old(report.emitted)
    ensures forall p :: p in PairsOf(derived) <==> Wanted(nodes, sc, supers, old(report.authoritative),
                                                          old(report.emitted), p)
    ensures report.authoritative == {} && report.emitted == {}
    ensures report.available == old(report.available)
  {
    derived := DeriveOverrides(nodes, sc, supers, report.authoritative, report.emitted);
    report.authoritative, report.emitted := {}, {};
  }

  /** A run without the bytecode pass, embedded in one with it: nodes, containment and supertype arcs are only added. */
  ghost predicate Grows(nodes: seq<Node>, sc: Scopes, supers: Hierarchy, nodes': seq<Node>, sc': Scopes,
                        supers': Hierarchy) {
    && (forall n :: n in nodes ==> n in nodes')
    && (forall n :: n in nodes ==> ParentOf(sc'.parents, n.id) == ParentOf(sc.parents, n.id))
    && (forall n :: n in nodes ==> InClass(sc'.parents, sc'.byId, n.id) == InClass(sc.parents, sc.byId, n.id))
    && ArcsOf(supers) <= ArcsOf(supers')
  }

  lemma OverridesSurvive(nodes: seq<Node>, sc: Scopes, supers: Hierarchy, nodes': seq<Node>, sc': Scopes,
                         supers': Hierarchy, n: Node, m: Node)
    requires Grows(nodes, sc, supers, nodes', sc', supers') && OverridesIn(nodes, sc, supers, n, m)
    ensures OverridesIn(nodes', sc', supers', n, m)
  {
    assert ParentOf(sc'.parents, n.id) == ParentOf(sc.parents, n.id);
    var cls := sc.parents[n.id];
    var anc :| DeclaredIn(sc, anc, m) && ReachesAbove(ArcsOf(supers), cls, anc);
    assert DeclaredIn(sc', anc, m);
    var k: nat :| 0 < k && Steps(ArcsOf(supers), cls, anc, k);
    StepsMonotone(ArcsOf(supers), ArcsOf(supers'), cls, anc, k);
    assert ReachesAbove(ArcsOf(supers'), cls, anc);
  }

  /**
    * A method without bytecode authority loses no pair the derivation would have found without bytecode: each is
    * proven or derived, never both. A method with authority has exactly its proven pairs.
    */
  lemma HandoffLosesNothing(nodes: seq<Node>, sc: Scopes, supers: Hierarchy, nodes': seq<Node>, sc': Scopes,
                            supers': Hierarchy, c: Claims, p: Pair)
    requires Grows(nodes, sc, supers, nodes', sc', supers')
    ensures var derived := Wanted(nodes', sc', supers', c.authoritative, c.emitted, p);
      && (p.0 !in c.authoritative && Wanted(nodes, sc, supers, {}, {}, p) ==> (p in c.emitted) != derived)
      && (p.0 in c.authoritative || p in c.emitted ==> !derived)
  {
    if p.0 !in c.authoritative && Wanted(nodes, sc, supers, {}, {}, p) {
      var n, m :| OverridesIn(nodes, sc, supers, n, m) && p == (n.id, m.id);
      OverridesSurvive(nodes, sc, supers, nodes', sc', supers', n, m);
    }
  }

  /** Both passes in order: a discarded pass leaves the derivation as if it had not run. */
  method OverridesOfRun(ix: SourceIndex, h: Headers, declared: Declared, edges: seq<Edge>,
                        classesInRepo: nat, matched: nat, missed: nat, minMatchRate: real,
                        nodes: seq<Node>, sc: Scopes, supers: Hierarchy)
    returns (kept: seq<Edge>, overrides: seq<Edge>)
    ensures OncePerPair(overrides)
    ensures forall e :: e in overrides ==> AllDerived(nodes, [e]) || AllProven(ix, declared, [e])
    ensures Discarded(classesInRepo, matched, missed, minMatchRate) ==>
      kept == [] && forall p :: p in PairsOf(overrides) <==> Wanted(nodes, sc, supers, {}, {}, p)
    ensures !Discarded(classesInRepo, matched, missed, minMatchRate) ==>
      edges <= kept && forall p :: p in PairsOf(overrides) <==> InEither(ix, h, declared, nodes, sc, supers, p)
  {
    var report := new BytecodeReport();
    kept := report.Finish(ix, h, declared, edges, classesInRepo, matched, missed, minMatchRate);
    var proven := if report.available then kept[|edges|..] else [];
    ghost var c := Claims(report.authoritative, report.emitted);
    assert c.emitted == PairsOf(proven);
    var derived := DeriveAfterBytecode(report, nodes, sc, supers);
    DisjointEdgesApart(proven, derived);
    overrides := proven + derived;
    if report.available {
      EitherIs(ix, h, declared, nodes, sc, supers, c);
    }
  }

  /** Proven, or wanted of a method without authority: what the graph holds after a kept pass. */
  ghost predicate InEither(ix: SourceIndex, h: Headers, declared: Declared, nodes: seq<Node>, sc: Scopes,
                           supers: Hierarchy, p: Pair) {
    || Proven(ix, h, declared, p)
    || (!Authority(ix, h, declared, p.0) && Wanted(nodes, sc, supers, {}, {}, p))
  }

  lemma EitherIs(ix: SourceIndex, h: Headers, declared: Declared, nodes: seq<Node>, sc: Scopes, supers: Hierarchy,
                 c: Claims)
    requires SaysProven(ix, h, declared, c.emitted) && SaysAuthority(ix, h, declared, c.authoritative)
    ensures forall p :: p in c.emitted || Wanted(nodes, sc, supers, c.authoritative, c.emitted, p)
                   <==> InEither(ix, h, declared, nodes, sc, supers, p)
  {
  }

  /** The typed supertypes a header names. */
  function HeaderTargets(hd: Header): seq<(string, string)> {
    [("EXTENDS", hd.superName)] + seq(|hd.interfaces|, i requires 0 <= i < |hd.interfaces| => ("IMPLEMENTS",
      hd.interfaces[i]))
  }

  type Triple = (string, string, string)

  function TripleOf(e: Edge): Triple { (e.etype, e.src, e.dst) }

  /** The superclass is extended, the interfaces are implemented. */
  ghost predicate NamesAs(hd: Header, t: (string, string)) {
    (t.0 == "EXTENDS" && t.1 == hd.superName) || (t.0 == "IMPLEMENTS" && t.1 in hd.interfaces)
  }

  lemma TargetsAreNamed(hd: Header, t: (string, string))
    ensures t in HeaderTargets(hd) <==> NamesAs(hd, t)
  {
    var ts := HeaderTargets(hd);
    assert ts[0] == ("EXTENDS", hd.superName);
    if t in ts && t != ts[0] {
      var i :| 0 < i < |ts| && ts[i] == t;
      assert t == ("IMPLEMENTS", hd.interfaces[i - 1]);
    }
    if t.0 == "IMPLEMENTS" && t.1 in hd.interfaces {
      var i :| 0 <= i < |hd.interfaces| && hd.interfaces[i] == t.1;
      assert ts[i + 1] == t;
    }
  }

  /** The walk over the headers goes exactly along the supertypes that the hierarchy edges are drawn for. */
  lemma LinkIffTarget(h: Headers, b: string, x: string)
    requires b in h && x != ""
    ensures (b, x) in Links(h) <==> exists t :: t in HeaderTargets(h[b]) && t.1 == x
  {
    if (b, x) in Links(h) {
      var t := if h[b].superName == x then ("EXTENDS", x) else ("IMPLEMENTS", x);
      TargetsAreNamed(h[b], t);
    }
    if t :| t in HeaderTargets(h[b]) && t.1 == x {
      TargetsAreNamed(h[b], t);
      assert x in Named(h[b]);
    }
  }

  /** `b`'s header names `t`, a different class of the repository. */
  ghost predicate HeaderSays(ix: SourceIndex, h: Headers, b: string, t: (string, string), key: Triple) {
    && b in h && NamesAs(h[b], t) && t.1 != "" && key.0 == t.0
    && ix.classId(b) == Some(key.1) && ix.classId(t.1) == Some(key.2) && key.1 != key.2
  }

  ghost function KeysFrom(ix: SourceIndex, h: Headers, b: string, targets: seq<(string, string)>): set<Triple>
    requires ix.classId(b).Some?
  {
    set t | t in targets && t.1 != "" && ix.classId(t.1).Some? && ix.classId(t.1) != ix.classId(b)
      :: (t.0, ix.classId(b).value, ix.classId(t.1).value)
  }

  ghost function TriplesOf(edges: seq<Edge>): set<Triple> { set e | e in edges :: TripleOf(e) }

  /** No triple twice, and each edge extracted from the header of its source. */
  ghost predicate OncePerTriple(ix: SourceIndex, edges: seq<Edge>) {
    && (forall i, j :: 0 <= i < j < |edges| ==> TripleOf(edges[i]) != TripleOf(edges[j]))
    && forall e :: e in edges ==> FromHeader(ix, e)
  }

  ghost predicate FromHeader(ix: SourceIndex, e: Edge) {
    && e.confidence == "EXTRACTED" && e.strategy == "bytecode"
    && e.evidenceFile == ix.fileOf(e.src) && e.evidenceLine == 0 && e.evidenceCol == 0
  }

  function HeaderEdge(ix: SourceIndex, t: Triple): Edge {
    Edge(t.0, t.1, t.2, "EXTRACTED", "bytecode", ix.fileOf(t.1), 0, 0)
  }

  ghost predicate Carries(ix: SourceIndex, edges: seq<Edge>, seen: set<Triple>) {
    OncePerTriple(ix, edges) && seen == TriplesOf(edges)
  }

  lemma CarriesNext(ix: SourceIndex, edges: seq<Edge>, seen: set<Triple>, t: Triple)
    requires Carries(ix, edges, seen) && t !in seen
    ensures Carries(ix, edges + [HeaderEdge(ix, t)], seen + {t})
  {
    var e := HeaderEdge(ix, t);
    forall i | 0 <= i < |edges| ensures TripleOf(edges[i]) in seen {
      assert edges[i] in edges;
    }
    assert TripleOf(e) == t;
    assert TriplesOf(edges + [e]) == TriplesOf(edges) + {t} by {
      assert forall x :: x in edges + [e] <==> x in edges || x == e;
    }
  }

  lemma KeysNext(ix: SourceIndex, h: Headers, b: string, targets: seq<(string, string)>, t: (string, string))
    requires ix.classId(b).Some?
    ensures KeysFrom(ix, h, b, targets + [t]) == KeysFrom(ix, h, b, targets)
      + if t.1 != "" && ix.classId(t.1).Some? && ix.classId(t.1) != ix.classId(b) then
        {(t.0, ix.classId(b).value, ix.classId(t.1).value)} else {}
  {
    assert forall x :: x in targets + [t] <==> x in targets || x == t;
  }

  method EmitSupertypes(ix: SourceIndex, h: Headers, b: string, edges: seq<Edge>, seen: set<Triple>)
    returns (edges': seq<Edge>, seen': set<Triple>)
    requires b in h && ix.classId(b).Some? && Carries(ix, edges, seen)
    ensures Carries(ix, edges', seen') && seen' == seen + KeysFrom(ix, h, b, HeaderTargets(h[b]))
  {
    edges', seen' := edges, seen;
    var targets, src := HeaderTargets(h[b]), ix.classId(b).value;
    for i := 0 to |targets|
      invariant Carries(ix, edges', seen') && seen' == seen + KeysFrom(ix, h, b, targets[..i])
    {
      var t := targets[i];
      assert targets[..i + 1] == targets[..i] + [t];
      KeysNext(ix, h, b, targets[..i], t);
      if t.1 != "" {
        var dst := ix.classId(t.1);
        if dst.Some? && dst.value != src && (t.0, src, dst.value) !in seen' {
          var key := (t.0, src, dst.value);
          CarriesNext(ix, edges', seen', key);
          edges', seen' := edges' + [HeaderEdge(ix, key)], seen' + {key};
        }
      }
    }
    assert targets[..|targets|] == targets;
  }

  /** EXTENDS and IMPLEMENTS straight from the headers, each once; `order` is the iteration order of the header map. */
  method EmitHierarchy(ix: SourceIndex, h: Headers, order: seq<string>) returns (edges: seq<Edge>)
    requires forall b :: b in order <==> b in h
    requires forall b :: b in h ==> ix.classId(b).Some?
    ensures OncePerTriple(ix, edges)
    ensures forall key :: key in TriplesOf(edges) <==> exists b, t :: HeaderSays(ix, h, b, t, key)
  {
    edges := [];
    var keys: set<Triple> := {};
    for i := 0 to |order|
      invariant Carries(ix, edges, keys)
      invariant forall key :: key in keys <==> exists b, t :: b in order[..i] && HeaderSays(ix, h, b, t, key)
    {
      edges, keys := EmitSupertypes(ix, h, order[i], edges, keys);
      HeadersNext(ix, h, order[..i], order[i]);
      assert order[..i + 1] == order[..i] + [order[i]];
    }
    assert order[..|order|] == order;
  }

  lemma HeadersNext(ix: SourceIndex, h: Headers, some: seq<string>, b: string)
    requires b in h && ix.classId(b).Some?
    ensures forall key :: (
      (exists c, t :: c in some + [b] && HeaderSays(ix, h, c, t, key))
      <==> (exists c, t :: c in some && HeaderSays(ix, h, c, t, key)) || key in KeysFrom(ix, h, b, HeaderTargets(h[b])))
  {
    forall t { TargetsAreNamed(h[b], t); }
    forall key | key in KeysFrom(ix, h, b, HeaderTargets(h[b]))
      ensures exists c, t :: c in some + [b] && HeaderSays(ix, h, c, t, key)
    {
      var t :| t in HeaderTargets(h[b]) && t.1 != "" && ix.classId(t.1).Some? && ix.classId(t.1) != ix.classId(b)
        && key == (t.0, ix.classId(b).value, ix.classId(t.1).value);
      assert HeaderSays(ix, h, b, t, key);
    }
    forall key, c, t | c in some && HeaderSays(ix, h, c, t, key)
      ensures exists c, t :: c in some + [b] && HeaderSays(ix, h, c, t, key)
    {
      assert c in some + [b];
    }
  }

  /** The supertype arcs between class nodes include what the headers say. */
  ghost predicate HoldsHeaders(ix: SourceIndex, h: Headers, supers: Hierarchy) {
    forall b, t, key :: HeaderSays(ix, h, b, t, key) ==> (key.1, key.2) in ArcsOf(supers)
  }

  /**
    * Every repository class the binary walk reaches is reached by the walk over class nodes as well, unless it
    * shares the node of the class the walk started from.
    */
  lemma {:induction false} NodeWalkReachesChain(ix: SourceIndex, h: Headers, supers: Hierarchy, b: string, c: string,
                                                n: nat)
    requires HoldsHeaders(ix, h, supers)
    requires forall x :: x in h ==> ix.classId(x).Some?
    requires 0 < n && Steps(Links(h), b, c, n) && ix.classId(b).Some? && ix.classId(c).Some?
    ensures ix.classId(b) == ix.classId(c) || ReachesAbove(ArcsOf(supers), ix.classId(b).value, ix.classId(c).value)
    decreases n
  {
    var x :| (b, x) in Links(h) && Steps(Links(h), x, c, n - 1);
    assert n > 1 ==> x in h;
    var s, t, r := ix.classId(b).value, ix.classId(x).value, ArcsOf(supers);
    LinkIsArc(ix, h, supers, b, x);
    if n == 1 {
      if s != t { AboveFirst(r, s, t); }
    } else {
      NodeWalkReachesChain(ix, h, supers, x, c, n - 1);
      var d := ix.classId(c).value;
      if s != t && t == d {
        AboveFirst(r, s, t);
      } else if s != t {
        var k: nat :| 0 < k && Steps(r, t, d, k);
        assert Steps(r, s, d, k + 1);
      }
    }
  }

  lemma LinkIsArc(ix: SourceIndex, h: Headers, supers: Hierarchy, b: string, x: string)
    requires HoldsHeaders(ix, h, supers) && (b, x) in Links(h) && ix.classId(b).Some? && ix.classId(x).Some?
    ensures ix.classId(b) == ix.classId(x) || (ix.classId(b).value, ix.classId(x).value) in ArcsOf(supers)
  {
    var t := if h[b].superName == x then ("EXTENDS", x) else ("IMPLEMENTS", x);
    assert x in Named(h[b]) && NamesAs(h[b], t);
    if ix.classId(b) != ix.classId(x) {
      assert HeaderSays(ix, h, b, t, (t.0, ix.classId(b).value, ix.classId(x).value));
    }
  }
}
