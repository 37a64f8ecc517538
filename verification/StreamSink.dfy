/** The resolve sink: hands each slice of edges to the writer and keeps light stand-ins of the structural ones. */
module StreamSink {
  import opened GraphModel
  import opened EdgeStats

  /** What one call hands over: the nodes synthesized since the last call, and the edges. */
  datatype Item = Item(nodes: seq<Node>, edges: seq<Edge>)

  function NodesIn(items: seq<Item>): seq<Node> {
    if items == [] then [] else NodesIn(items[..|items| - 1]) + items[|items| - 1].nodes
  }

  function EdgesIn(items: seq<Item>): seq<Edge> {
    if items == [] then [] else EdgesIn(items[..|items| - 1]) + items[|items| - 1].edges
  }

  const RETAINED_TYPES: set<string> := {"CONTAINS", "EXTENDS", "IMPLEMENTS", "ANNOTATED_WITH", "EXPOSES"}

  function IsRetained(): Edge -> bool { (e: Edge) => e.etype in RETAINED_TYPES }

  /** The stand-in: type and endpoints only. */
  function ToSlim(e: Edge): Edge { Edge(e.etype, e.src, e.dst, "", "", "", 0, 0) }

  function Slimmed(edges: seq<Edge>): seq<Edge> {
    if edges == [] then [] else Slimmed(edges[..|edges| - 1]) + [ToSlim(edges[|edges| - 1])]
  }

  /** What stays in memory of a list of edges. */
  function Kept(edges: seq<Edge>): seq<Edge> { Slimmed(Select(edges, IsRetained())) }

  lemma {:induction false} SlimmedConcat(a: seq<Edge>, b: seq<Edge>)
    ensures Slimmed(a + b) == Slimmed(a) + Slimmed(b)
  {
    if b == [] {
      assert a + b == a;
    } else {
      assert (a + b)[..|a + b| - 1] == a + b[..|b| - 1];
      SlimmedConcat(a, b[..|b| - 1]);
    }
  }

  lemma KeptConcat(a: seq<Edge>, b: seq<Edge>)
    ensures Kept(a + b) == Kept(a) + Kept(b)
  {
    SelectConcat(a, b, IsRetained());
    SlimmedConcat(Select(a, IsRetained()), Select(b, IsRetained()));
  }

  lemma KeptOne(e: Edge)
    ensures Kept([e]) == if e.etype in RETAINED_TYPES then [ToSlim(e)] else []
  {
    assert Select([e], IsRetained()) == if e.etype in RETAINED_TYPES then [e] else [];
    assert [e][..0] == [];
    assert Slimmed([e]) == [ToSlim(e)];
  }

  /** Edges that say what contains, extends, implements, annotates or exposes what. */
  function Structural(): Edge -> bool {
    (e: Edge) => e.etype == "CONTAINS" || e.etype == "EXTENDS" || e.etype == "IMPLEMENTS"
      || e.etype == "ANNOTATED_WITH" || e.etype == "EXPOSES"
  }

  /** Type and endpoints are those of the edge; all else is left out. */
  ghost predicate StandsFor(slim: Edge, e: Edge) {
    && slim.etype == e.etype && slim.src == e.src && slim.dst == e.dst
    && slim.confidence == slim.strategy == slim.evidenceFile == "" && slim.evidenceLine == slim.evidenceCol == 0
  }

  /** One stand-in for each structural edge, in order. */
  ghost predicate StandIns(kept: seq<Edge>, edges: seq<Edge>) {
    var some := Select(edges, Structural());
    |kept| == |some| && forall i :: 0 <= i < |some| ==> StandsFor(kept[i], some[i])
  }

  lemma {:induction false} SlimStand(edges: seq<Edge>)
    ensures |Slimmed(edges)| == |edges|
    ensures forall i :: 0 <= i < |edges| ==> StandsFor(Slimmed(edges)[i], edges[i])
  {
    if edges != [] { SlimStand(edges[..|edges| - 1]); }
  }

  lemma KeptAreStandIns(edges: seq<Edge>)
    ensures StandIns(Kept(edges), edges)
  {
    SelectAgree(edges, IsRetained(), Structural());
    SlimStand(Select(edges, IsRetained()));
  }

  /** The known ids and the counted batches are those of what was queued. */
  ghost predicate Fit(extracted: set<string>, known: set<string>, queued: seq<Item>, batches: seq<Batch>) {
    && known == extracted + IdsOf(NodesIn(queued))
    && EdgesOf(batches) == EdgesIn(queued)
    && forall b :: b in batches ==> b.ids <= known
  }

  lemma FitNext(extracted: set<string>, known: set<string>, queued: seq<Item>, batches: seq<Batch>, newNodes: seq<Node>,
                batch: seq<Edge>)
    requires Fit(extracted, known, queued, batches)
    ensures var all := known + IdsOf(newNodes);
      Fit(extracted, all, Enqueued(queued, newNodes, batch), batches + [Batch(batch, all)])
  {
    EnqueuedAll(queued, newNodes, batch);
    assert (batches + [Batch(batch, known + IdsOf(newNodes))])[..|batches|] == batches;
  }

  class Sink {
    const tally: Tally
    var knownIds: set<string>
    var queued: seq<Item>
    ghost const extracted: set<string>
    ghost var batches: seq<Batch>

    /** The known ids and the tallies are those of what was queued. */
    ghost predicate Valid()
      reads this, tally
    {
      IdsFit() && TallyFits()
    }

    ghost predicate TallyFits()
      reads this`batches, tally
    {
      Counted(tally.total, tally.dangling, tally.relCounts, batches)
    }

    /** All of `Valid` but the tallies. */
    ghost predicate IdsFit()
      reads this`knownIds, this`queued, this`batches
    {
      Fit(extracted, knownIds, queued, batches)
    }

    method CountBatch(batch: seq<Edge>)
      requires TallyFits()
      modifies this`batches, tally
      ensures TallyFits()
      ensures batches == old(batches) + [Batch(batch, knownIds)]
      ensures EdgesOf(batches) == EdgesOf(old(batches)) + batch
    {
      tally.Add(batch, knownIds);
      CountedNext(old(tally.total), old(tally.dangling), old(tally.relCounts), tally.relCounts, batches,
                  Batch(batch, knownIds));
      batches := batches + [Batch(batch, knownIds)];
    }

    constructor (extracted: set<string>)
      ensures Valid() && fresh(tally)
      ensures this.extracted == knownIds == extracted && queued == [] && batches == []
    {
      tally := new Tally();
      knownIds, queued := extracted, [];
      this.extracted, batches := extracted, [];
      new;
      assert IdsOf([]) == {};
    }

    /** The ids first, then the tallies, then the queue. */
    method Enter(newNodes: seq<Node>, batch: seq<Edge>)
      requires Valid()
      modifies this, tally
      ensures Valid()
      ensures queued == Enqueued(old(queued), newNodes, batch)
      ensures batches == old(batches) + [Batch(batch, knownIds)]
    {
      FitNext(extracted, knownIds, queued, batches, newNodes, batch);
      knownIds := knownIds + IdsOf(newNodes);
      CountBatch(batch);
      if newNodes != [] || batch != [] {
        queued := queued + [Item(newNodes, batch)];
      }
    }

    method Take(newNodes: seq<Node>, batch: seq<Edge>) returns (keep: seq<Edge>)
      requires Valid()
      modifies this, tally
      ensures Valid()
      ensures queued == Enqueued(old(queued), newNodes, batch)
      ensures batches == old(batches) + [Batch(batch, knownIds)]
      ensures keep == Kept(batch) && StandIns(keep, batch)
    {
      KeptAreStandIns(batch);
      Enter(newNodes, batch);
      keep := KeepStructural(batch);
    }
  }

  /** An empty hand-over is not queued. */
  function Enqueued(queued: seq<Item>, newNodes: seq<Node>, batch: seq<Edge>): seq<Item> {
    if newNodes == [] && batch == [] then queued else queued + [Item(newNodes, batch)]
  }

  lemma EnqueuedAll(queued: seq<Item>, newNodes: seq<Node>, batch: seq<Edge>)
    ensures NodesIn(Enqueued(queued, newNodes, batch)) == NodesIn(queued) + newNodes
    ensures EdgesIn(Enqueued(queued, newNodes, batch)) == EdgesIn(queued) + batch
    ensures IdsOf(NodesIn(Enqueued(queued, newNodes, batch))) == IdsOf(NodesIn(queued)) + IdsOf(newNodes)
  {
    ItemsNext(queued, Item(newNodes, batch));
    IdsConcat(NodesIn(queued), newNodes);
  }

  lemma ItemsNext(items: seq<Item>, item: Item)
    ensures NodesIn(items + [item]) == NodesIn(items) + item.nodes
    ensures EdgesIn(items + [item]) == EdgesIn(items) + item.edges
    ensures IdsOf(NodesIn(items + [item])) == IdsOf(NodesIn(items)) + IdsOf(item.nodes)
  {
    assert (items + [item])[..|items|] == items;
    IdsConcat(NodesIn(items), item.nodes);
  }

  method KeepStructural(batch: seq<Edge>) returns (keep: seq<Edge>)
    ensures keep == Kept(batch)
  {
    keep := [];
    for i := 0 to |batch|
      invariant keep == Kept(batch[..i])
    {
      assert batch[..i + 1] == batch[..i] + [batch[i]];
      KeptConcat(batch[..i], [batch[i]]);
      KeptOne(batch[i]);
      if batch[i].etype in RETAINED_TYPES {
        keep := keep + [ToSlim(batch[i])];
      }
    }
    assert batch[..|batch|] == batch;
  }
}
