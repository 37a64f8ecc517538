/** Running edge tallies, kept as edges are produced instead of recounted at the end. */
module EdgeStats {
  import opened GraphModel

  function OfType(t: string): Edge -> bool { (e: Edge) => e.etype == t }

  function Dangles(ids: set<string>): Edge -> bool { (e: Edge) => e.src !in ids || e.dst !in ids }

  function CountOf(edges: seq<Edge>, p: Edge -> bool): nat { |Select(edges, p)| }

  lemma CountNext(edges: seq<Edge>, i: nat, p: Edge -> bool)
    requires i < |edges|
    ensures CountOf(edges[..i + 1], p) == CountOf(edges[..i], p) + if p(edges[i]) then 1 else 0
  {
    assert edges[..i + 1] == edges[..i] + [edges[i]];
    SelectConcat(edges[..i], [edges[i]], p);
  }

  function RelCount(counts: map<string, int>, t: string): int { if t in counts then counts[t] else 0 }

  class Tally {
    var relCounts: map<string, int>
    var dangling: int
    var total: int

    constructor ()
      ensures relCounts == map[] && dangling == 0 && total == 0
    {
      relCounts, dangling, total := map[], 0, 0;
    }

    method Add(edges: seq<Edge>, nodeIds: set<string>)
      modifies this
      ensures total == old(total) + |edges|
      ensures dangling == old(dangling) + CountOf(edges, Dangles(nodeIds))
      ensures forall t :: RelCount(relCounts, t) == RelCount(old(relCounts), t) + CountOf(edges, OfType(t))
    {
      var d, n := 0, 0;
      for i := 0 to |edges|
        invariant n == i && d == CountOf(edges[..i], Dangles(nodeIds))
        invariant forall t :: RelCount(relCounts, t) == RelCount(old(relCounts), t) + CountOf(edges[..i], OfType(t))
        invariant total == old(total) && dangling == old(dangling)
      {
        var e := edges[i];
        CountNext(edges, i, Dangles(nodeIds));
        forall t
          ensures CountOf(edges[..i + 1], OfType(t)) == CountOf(edges[..i], OfType(t)) + if e.etype == t then 1 else 0
        {
          CountNext(edges, i, OfType(t));
        }
        relCounts := relCounts[e.etype := RelCount(relCounts, e.etype) + 1];
        n := n + 1;
        if e.src !in nodeIds || e.dst !in nodeIds {
          d := d + 1;
        }
      }
      assert edges[..|edges|] == edges;
      total := total + n;
      dangling := dangling + d;
    }

    /** Edges created inside the database, known only by number. */
    method AddCount(edgeType: string, n: nat)
      modifies this
      ensures total == old(total) + n && dangling == old(dangling)
      ensures forall t :: RelCount(relCounts, t) == RelCount(old(relCounts), t) + (if t == edgeType then n else 0)
    {
      if n != 0 {
        relCounts := relCounts[edgeType := RelCount(relCounts, edgeType) + n];
        total := total + n;
      }
    }

    method Reset()
      modifies this
      ensures relCounts == map[] && dangling == 0 && total == 0
    {
      relCounts, dangling, total := map[], 0, 0;
    }
  }

  // ---- incremental against a full recount -------------------------------

  /** One call to Add: the edges, and the ids known at that moment. */
  datatype Batch = Batch(edges: seq<Edge>, ids: set<string>)

  function EdgesOf(batches: seq<Batch>): seq<Edge> {
    if batches == [] then [] else EdgesOf(batches[..|batches| - 1]) + batches[|batches| - 1].edges
  }

  /** The dangling tally after a series of Adds. */
  function DanglingTally(batches: seq<Batch>): nat {
    if batches == [] then 0
    else DanglingTally(batches[..|batches| - 1])
         + CountOf(batches[|batches| - 1].edges, Dangles(batches[|batches| - 1].ids))
  }

  /** The tallies are those of these Adds. */
  ghost predicate Counted(total: int, dangling: int, relCounts: map<string, int>, batches: seq<Batch>) {
    && total == |EdgesOf(batches)|
    && dangling == DanglingTally(batches)
    && forall t :: RelCount(relCounts, t) == CountOf(EdgesOf(batches), OfType(t))
  }

  lemma CountedNext(total: int, dangling: int, counts: map<string, int>, counts': map<string, int>,
                    batches: seq<Batch>, b: Batch)
    requires Counted(total, dangling, counts, batches)
    requires forall t :: RelCount(counts', t) == RelCount(counts, t) + CountOf(b.edges, OfType(t))
    ensures Counted(total + |b.edges|, dangling + CountOf(b.edges, Dangles(b.ids)), counts', batches + [b])
    ensures EdgesOf(batches + [b]) == EdgesOf(batches) + b.edges
  {
    assert (batches + [b])[..|batches|] == batches;
    forall t ensures RelCount(counts', t) == CountOf(EdgesOf(batches + [b]), OfType(t)) {
      SelectConcat(EdgesOf(batches), b.edges, OfType(t));
    }
  }

  /** An edge counted as dangling whose missing endpoint turned up afterwards. */
  ghost predicate LateEndpoint(batches: seq<Batch>, ids: set<string>) {
    exists b, e :: b in batches && e in b.edges && Dangles(b.ids)(e) && !Dangles(ids)(e)
  }

  lemma {:induction false} FewerDangle(edges: seq<Edge>, early: set<string>, ids: set<string>)
    requires early <= ids
    ensures CountOf(edges, Dangles(ids)) <= CountOf(edges, Dangles(early))
    ensures CountOf(edges, Dangles(ids)) == CountOf(edges, Dangles(early)) <==>
      forall e :: e in edges ==> Dangles(early)(e) == Dangles(ids)(e)
  {
    if edges != [] {
      FewerDangle(edges[1..], early, ids);
      assert edges == [edges[0]] + edges[1..];
    }
  }

  /** The running tally never undercounts, and equals a full recount exactly when no endpoint arrived after its edge. */
  lemma {:induction false} TallyIsRecount(batches: seq<Batch>, ids: set<string>)
    requires forall b :: b in batches ==> b.ids <= ids
    ensures CountOf(EdgesOf(batches), Dangles(ids)) <= DanglingTally(batches)
    ensures DanglingTally(batches) == CountOf(EdgesOf(batches), Dangles(ids)) <==> !LateEndpoint(batches, ids)
  {
    if batches != [] {
      var rest, last := batches[..|batches| - 1], batches[|batches| - 1];
      assert batches == rest + [last];
      TallyIsRecount(rest, ids);
      FewerDangle(last.edges, last.ids, ids);
      SelectConcat(EdgesOf(rest), last.edges, Dangles(ids));
      if LateEndpoint(batches, ids) && !LateEndpoint(rest, ids) {
        var b, e :| b in batches && e in b.edges && Dangles(b.ids)(e) && !Dangles(ids)(e);
        assert b == last;
      }
    }
  }
}
