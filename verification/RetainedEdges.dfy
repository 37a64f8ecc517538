/** What the derive passes can still read off the stand-ins that the resolve sink keeps. */
module RetainedEdges {
  import opened GraphModel
  import opened LookupIndices
  import opened Ancestors
  import opened Overrides
  import opened StreamSink

  /** Whatever comes before them, the kept edges give the containment and the hierarchy that all the edges give. */
  ghost predicate Suffices(kept: seq<Edge>, edges: seq<Edge>) {
    && (forall before :: Containers(before + kept) == Containers(before + edges))
    && forall before, supers, byId ::
         IsHierarchyOf(supers, before + kept, byId) <==> IsHierarchyOf(supers, before + edges, byId)
  }

  lemma ContainersOne(edges: seq<Edge>, e: Edge)
    ensures Containers(edges + [e]) == if e.etype == "CONTAINS" then Containers(edges)[e.dst := e.src]
      else Containers(edges)
  {
    assert (edges + [e])[..|edges|] == edges;
  }

  lemma KeptNext(before: seq<Edge>, rest: seq<Edge>, last: Edge)
    ensures before + Kept(rest + [last]) == before + Kept(rest) + if last.etype in RETAINED_TYPES then [ToSlim(last)]
      else []
  {
    KeptConcat(rest, [last]);
    KeptOne(last);
  }

  lemma {:induction false} ContainersKept(before: seq<Edge>, edges: seq<Edge>)
    ensures Containers(before + Kept(edges)) == Containers(before + edges)
  {
    if edges == [] {
      assert Kept(edges) == edges;
    } else {
      var rest, last := edges[..|edges| - 1], edges[|edges| - 1];
      ContainersKept(before, rest);
      assert edges == rest + [last];
      ContainersKeptNext(before, rest, last);
    }
  }

  lemma ContainersKeptNext(before: seq<Edge>, rest: seq<Edge>, last: Edge)
    requires Containers(before + Kept(rest)) == Containers(before + rest)
    ensures Containers(before + Kept(rest + [last])) == Containers(before + (rest + [last]))
  {
    KeptNext(before, rest, last);
    assert before + (rest + [last]) == (before + rest) + [last];
    ContainersOne(before + rest, last);
    ContainersOne(before + Kept(rest), ToSlim(last));
    assert before + Kept(rest) + [] == before + Kept(rest);
  }

  /** Each stand-in is one of an edge, and each structural edge has one. */
  lemma StandInOf(edges: seq<Edge>, slim: Edge) returns (e: Edge)
    requires slim in Kept(edges)
    ensures e in edges && StandsFor(slim, e)
  {
    var some, kept := Select(edges, Structural()), Kept(edges);
    KeptAreStandIns(edges);
    var i :| 0 <= i < |kept| && kept[i] == slim;
    e := some[i];
    assert e in some;
  }

  lemma HasStandIn(edges: seq<Edge>, e: Edge) returns (slim: Edge)
    requires e in edges && Structural()(e)
    ensures slim in Kept(edges) && StandsFor(slim, e)
  {
    var some, kept := Select(edges, Structural()), Kept(edges);
    KeptAreStandIns(edges);
    assert e in some;
    var i :| 0 <= i < |some| && some[i] == e;
    slim := kept[i];
  }

  lemma LinkKept(edges: seq<Edge>, byId: map<string, Node>, s: string, d: string)
    ensures SomeLink(Kept(edges), byId, s, d) <==> SomeLink(edges, byId, s, d)
  {
    if slim :| slim in Kept(edges) && LinksClasses(byId, slim) && slim.src == s && slim.dst == d {
      var e := StandInOf(edges, slim);
    }
    if e :| e in edges && LinksClasses(byId, e) && e.src == s && e.dst == d {
      var slim := HasStandIn(edges, e);
    }
  }

  lemma LinkAmong(a: seq<Edge>, b: seq<Edge>, byId: map<string, Node>, s: string, d: string)
    ensures SomeLink(a + b, byId, s, d) <==> SomeLink(a, byId, s, d) || SomeLink(b, byId, s, d)
  {
    if e :| e in a && LinksClasses(byId, e) && e.src == s && e.dst == d { assert e in a + b; }
    if e :| e in b && LinksClasses(byId, e) && e.src == s && e.dst == d { assert e in a + b; }
  }

  lemma HierarchyKept(before: seq<Edge>, edges: seq<Edge>, supers: Hierarchy, byId: map<string, Node>)
    ensures IsHierarchyOf(supers, before + Kept(edges), byId) <==> IsHierarchyOf(supers, before + edges, byId)
  {
    forall s, d ensures SomeLink(before + Kept(edges), byId, s, d) <==> SomeLink(before + edges, byId, s, d) {
      LinkAmong(before, Kept(edges), byId, s, d);
      LinkAmong(before, edges, byId, s, d);
      LinkKept(edges, byId, s, d);
    }
  }

  /** Overrides can be derived from the stand-ins as from all the edges. */
  lemma KeptSuffices(edges: seq<Edge>)
    ensures Suffices(Kept(edges), edges)
  {
    forall before ensures Containers(before + Kept(edges)) == Containers(before + edges) {
      ContainersKept(before, edges);
    }
    forall before, supers, byId
      ensures IsHierarchyOf(supers, before + Kept(edges), byId) <==> IsHierarchyOf(supers, before + edges, byId)
    {
      HierarchyKept(before, edges, supers, byId);
    }
  }

  /** The stand-ins of the structural edges, which serve as well. */
  ghost predicate Retains(kept: seq<Edge>, edges: seq<Edge>) { StandIns(kept, edges) && Suffices(kept, edges) }

  lemma KeptRetains(edges: seq<Edge>)
    ensures Retains(Kept(edges), edges)
  {
    KeptAreStandIns(edges);
    KeptSuffices(edges);
  }
}
