/** The resolve stage end to end: references in, stored relationships out. */
module ResolveStage {
  import opened GraphModel
  import opened EdgeStats
  import opened StreamSink
  import opened RetainedEdges
  import opened LookupIndices
  import opened Narrowing
  import opened ReferenceEdges
  import EdgeTargets
  import opened ResolveRefs
  import opened ResolveRun
  import opened ImportTables
  import opened SupertypePass
  import opened ReferenceMeaning
  import opened Relationships
  import StoreWrites
  import BackgroundWriter
  import CanonicalIr

  function RowsOf(edges: seq<Edge>, origin: string): seq<Row> {
    seq(|edges|, i requires 0 <= i < |edges| => Row(edges[i], origin))
  }

  /** What the store holds: node ids and relationships. */
  datatype Store = Store(nodes: set<string>, rels: Rels)

  /** One call on the store, as `write_nodes` and `write_edges` leave it. */
  ghost function Do(s: Store, op: BackgroundWriter.Op, origin: string, dropped: set<string>): Store {
    match op
    case WriteNodes(ns) => s.(nodes := s.nodes + IdsOf(ns))
    case WriteEdges(es) => s.(rels := UpsertAll(s.nodes, s.rels, StoreWrites.Live(RowsOf(es, origin), dropped)))
  }

  ghost function Replay(s: Store, log: seq<BackgroundWriter.Op>, origin: string, dropped: set<string>): Store {
    if log == [] then s else Do(Replay(s, log[..|log| - 1], origin, dropped), log[|log| - 1], origin, dropped)
  }

  lemma {:induction false} ReplayConcat(s: Store, a: seq<BackgroundWriter.Op>, b: seq<BackgroundWriter.Op>,
                                        origin: string, dropped: set<string>)
    ensures Replay(s, a + b, origin, dropped) == Replay(Replay(s, a, origin, dropped), b, origin, dropped)
  {
    if b == [] {
      assert a + b == a;
    } else {
      assert (a + b)[..|a + b| - 1] == a + b[..|b| - 1];
      ReplayConcat(s, a, b[..|b| - 1], origin, dropped);
    }
  }

  lemma ReplayItem(s: Store, item: Item, origin: string, dropped: set<string>)
    ensures Replay(s, BackgroundWriter.NodeOps(item) + BackgroundWriter.EdgeOps(item), origin, dropped)
         == Store(s.nodes + IdsOf(item.nodes),
                  UpsertAll(s.nodes + IdsOf(item.nodes), s.rels, StoreWrites.Live(RowsOf(item.edges, origin), dropped)))
  {
    ReplayConcat(s, BackgroundWriter.NodeOps(item), BackgroundWriter.EdgeOps(item), origin, dropped);
    ReplayNodes(s, item, origin, dropped);
    ReplayEdges(s.(nodes := s.nodes + IdsOf(item.nodes)), item, origin, dropped);
  }

  lemma ReplayNodes(s: Store, item: Item, origin: string, dropped: set<string>)
    ensures Replay(s, BackgroundWriter.NodeOps(item), origin, dropped) == s.(nodes := s.nodes + IdsOf(item.nodes))
  {
    var ops := BackgroundWriter.NodeOps(item);
    if ops != [] { assert ops[..0] == []; }
  }

  lemma ReplayEdges(s: Store, item: Item, origin: string, dropped: set<string>)
    ensures Replay(s, BackgroundWriter.EdgeOps(item), origin, dropped)
         == s.(rels := UpsertAll(s.nodes, s.rels, StoreWrites.Live(RowsOf(item.edges, origin), dropped)))
  {
    var ops := BackgroundWriter.EdgeOps(item);
    if ops != [] { assert ops[..0] == []; }
  }

  ghost predicate AllLinked(nodes: set<string>, rows: seq<Row>) { forall r :: r in rows ==> Linked(nodes, r.Key()) }

  /** Nodes stored later do not matter to rows whose endpoints are stored already. */
  lemma {:induction false} LaterNodes(nodes: set<string>, more: set<string>, rels: Rels, rows: seq<Row>)
    requires AllLinked(nodes, rows) && nodes <= more
    ensures UpsertAll(nodes, rels, rows) == UpsertAll(more, rels, rows)
    decreases |rows|
  {
    if rows != [] {
      assert rows[0] in rows;
      LaterNodes(nodes, more, Upsert(nodes, rels, rows[0]), rows[1..]);
    }
  }

  lemma LiveConcat(a: seq<Edge>, b: seq<Edge>, origin: string, dropped: set<string>)
    ensures StoreWrites.Live(RowsOf(a + b, origin), dropped)
         == StoreWrites.Live(RowsOf(a, origin), dropped) + StoreWrites.Live(RowsOf(b, origin), dropped)
  {
    assert RowsOf(a + b, origin) == RowsOf(a, origin) + RowsOf(b, origin);
    SelectConcat(RowsOf(a, origin), RowsOf(b, origin), StoreWrites.NotDropped(dropped));
  }

  ghost predicate EdgesLinked(nodes: set<string>, edges: seq<Edge>) {
    forall e :: e in edges ==> e.src in nodes && e.dst in nodes
  }

  lemma LiveLinked(nodes: set<string>, edges: seq<Edge>, origin: string, dropped: set<string>)
    requires EdgesLinked(nodes, edges)
    ensures AllLinked(nodes, StoreWrites.Live(RowsOf(edges, origin), dropped))
  {
    forall r | r in StoreWrites.Live(RowsOf(edges, origin), dropped) ensures Linked(nodes, r.Key()) {
      assert r in RowsOf(edges, origin);
    }
  }

  // ---- item by item ------------------------------------------------------------

  function Both(known: set<string>): Edge -> bool { (e: Edge) => e.src in known && e.dst in known }

  /** The edges both of whose endpoints are stored when their item is written. */
  ghost function InTime(items: seq<Item>, ids: set<string>): seq<Edge> {
    if items == [] then []
    else InTime(items[..|items| - 1], ids) + Select(items[|items| - 1].edges, Both(ids + IdsOf(NodesIn(items))))
  }

  /** Edges that miss an endpoint write nothing. */
  lemma {:induction false} UnlinkedSkipped(nodes: set<string>, rels: Rels, edges: seq<Edge>, origin: string,
                                           dropped: set<string>)
    ensures UpsertAll(nodes, rels, StoreWrites.Live(RowsOf(Select(edges, Both(nodes)), origin), dropped))
         == UpsertAll(nodes, rels, StoreWrites.Live(RowsOf(edges, origin), dropped))
    decreases |edges|
  {
    if edges != [] {
      var rest, last := edges[..|edges| - 1], [edges[|edges| - 1]];
      assert edges == rest + last;
      UnlinkedSkipped(nodes, rels, rest, origin, dropped);
      SelectConcat(rest, last, Both(nodes));
      OneSkipped(nodes, UpsertAll(nodes, rels, StoreWrites.Live(RowsOf(rest, origin), dropped)), last[0], origin,
                 dropped);
      WritesConcat(nodes, rels, rest, last, origin, dropped);
      WritesConcat(nodes, rels, Select(rest, Both(nodes)), Select(last, Both(nodes)), origin, dropped);
    }
  }

  lemma LiveOne(r: Row, dropped: set<string>)
    ensures StoreWrites.Live([r], dropped) == if r.edge.etype in dropped then [] else [r]
  {
    assert [r][1..] == [];
    assert Select([r][1..], StoreWrites.NotDropped(dropped)) == [];
  }

  lemma OneSkipped(nodes: set<string>, rels: Rels, e: Edge, origin: string, dropped: set<string>)
    ensures UpsertAll(nodes, rels, StoreWrites.Live(RowsOf(Select([e], Both(nodes)), origin), dropped))
         == UpsertAll(nodes, rels, StoreWrites.Live(RowsOf([e], origin), dropped))
  {
    if !Both(nodes)(e) {
      assert Select([e], Both(nodes)) == [] && RowsOf([], origin) == [];
      assert RowsOf([e], origin) == [Row(e, origin)];
      var r := Row(e, origin);
      LiveOne(r, dropped);
    } else {
      assert Select([e], Both(nodes)) == [e];
    }
  }

  lemma WritesConcat(nodes: set<string>, rels: Rels, a: seq<Edge>, b: seq<Edge>, origin: string, dropped: set<string>)
    ensures UpsertAll(nodes, rels, StoreWrites.Live(RowsOf(a + b, origin), dropped))
         == UpsertAll(nodes, UpsertAll(nodes, rels, StoreWrites.Live(RowsOf(a, origin), dropped)),
                      StoreWrites.Live(RowsOf(b, origin), dropped))
  {
    LiveConcat(a, b, origin, dropped);
    UpsertConcat(nodes, rels, StoreWrites.Live(RowsOf(a, origin), dropped),
                 StoreWrites.Live(RowsOf(b, origin), dropped));
  }

  /** Writing item by item, whatever the items: the store ends as if all nodes had been there before the first edge, but
      without the edges that came before one of their endpoints. */
  lemma {:induction false} ItemsWriteAll(items: seq<Item>, s: Store, origin: string, dropped: set<string>)
    ensures Replay(s, BackgroundWriter.AllOps(items), origin, dropped)
         == Store(s.nodes + IdsOf(NodesIn(items)),
                  UpsertAll(s.nodes + IdsOf(NodesIn(items)), s.rels,
                            StoreWrites.Live(RowsOf(InTime(items, s.nodes), origin), dropped)))
    ensures EdgesLinked(s.nodes + IdsOf(NodesIn(items)), InTime(items, s.nodes))
    decreases |items|
  {
    if items == [] {
      assert StoreWrites.Live(RowsOf([], origin), dropped) == [];
      assert s.nodes + IdsOf([]) == s.nodes;
    } else {
      ItemsWriteAll(items[..|items| - 1], s, origin, dropped);
      LastItemWrites(items, s, origin, dropped);
    }
  }

  lemma LastItemWrites(items: seq<Item>, s: Store, origin: string, dropped: set<string>)
    requires items != []
    requires var rest := items[..|items| - 1]; var all := s.nodes + IdsOf(NodesIn(rest));
      && Replay(s, BackgroundWriter.AllOps(rest), origin, dropped)
           == Store(all, UpsertAll(all, s.rels, StoreWrites.Live(RowsOf(InTime(rest, s.nodes), origin), dropped)))
      && EdgesLinked(all, InTime(rest, s.nodes))
    ensures Replay(s, BackgroundWriter.AllOps(items), origin, dropped)
         == Store(s.nodes + IdsOf(NodesIn(items)),
                  UpsertAll(s.nodes + IdsOf(NodesIn(items)), s.rels,
                            StoreWrites.Live(RowsOf(InTime(items, s.nodes), origin), dropped)))
    ensures EdgesLinked(s.nodes + IdsOf(NodesIn(items)), InTime(items, s.nodes))
  {
    var rest, last := items[..|items| - 1], items[|items| - 1];
    var all, more := s.nodes + IdsOf(NodesIn(rest)), s.nodes + IdsOf(NodesIn(items));
    AllOpsLast(items, s, origin, dropped);
    ReplayItem(Replay(s, BackgroundWriter.AllOps(rest), origin, dropped), last, origin, dropped);
    NodesOfLast(s.nodes, items);
    UnlinkedSkipped(more, UpsertAll(all, s.rels, StoreWrites.Live(RowsOf(InTime(rest, s.nodes), origin), dropped)),
                    last.edges,
                    origin, dropped);
    ChainWrites(all, more, s.rels, InTime(rest, s.nodes), Select(last.edges, Both(more)), origin, dropped);
  }

  lemma AllOpsLast(items: seq<Item>, s: Store, origin: string, dropped: set<string>)
    requires items != []
    ensures var last := items[|items| - 1];
      Replay(s, BackgroundWriter.AllOps(items), origin, dropped)
      == Replay(Replay(s, BackgroundWriter.AllOps(items[..|items| - 1]), origin, dropped),
                BackgroundWriter.NodeOps(last) + BackgroundWriter.EdgeOps(last), origin, dropped)
  {
    var rest, last := items[..|items| - 1], items[|items| - 1];
    var ops := BackgroundWriter.NodeOps(last) + BackgroundWriter.EdgeOps(last);
    assert BackgroundWriter.AllOps(items) == BackgroundWriter.AllOps(rest) + ops;
    ReplayConcat(s, BackgroundWriter.AllOps(rest), ops, origin, dropped);
  }

  lemma NodesOfLast(nodes: set<string>, items: seq<Item>)
    requires items != []
    ensures nodes + IdsOf(NodesIn(items)) == (nodes + IdsOf(NodesIn(items[..|items| - 1])))
      + IdsOf(items[|items| - 1].nodes)
  {
    IdsConcat(NodesIn(items[..|items| - 1]), items[|items| - 1].nodes);
  }

  lemma ChainWrites(all: set<string>, more: set<string>, rels: Rels, edges: seq<Edge>, last: seq<Edge>, origin: string,
                    dropped: set<string>)
    requires EdgesLinked(all, edges) && EdgesLinked(more, last) && all <= more
    ensures UpsertAll(more, UpsertAll(all, rels, StoreWrites.Live(RowsOf(edges, origin), dropped)),
                      StoreWrites.Live(RowsOf(last, origin), dropped))
         == UpsertAll(more, rels, StoreWrites.Live(RowsOf(edges + last, origin), dropped))
    ensures EdgesLinked(more, edges + last)
  {
    LiveLinked(all, edges, origin, dropped);
    LaterNodes(all, more, rels, StoreWrites.Live(RowsOf(edges, origin), dropped));
    WritesConcat(more, rels, edges, last, origin, dropped);
  }

  /** A relationship that was asked for is missing exactly when every edge of its key came before one of its
      endpoints. */
  lemma MissedIff(items: seq<Item>, s: Store, origin: string, dropped: set<string>, k: Relationships.Key)
    ensures var all, stored := s.nodes + IdsOf(NodesIn(items)),
      Replay(s, BackgroundWriter.AllOps(items), origin, dropped);
      k in UpsertAll(all, s.rels, StoreWrites.Live(RowsOf(EdgesIn(items), origin), dropped)) && k !in stored.rels <==>
        && k !in s.rels && Linked(all, k)
        && k in RowKeys(StoreWrites.Live(RowsOf(EdgesIn(items), origin), dropped))
        && k !in RowKeys(StoreWrites.Live(RowsOf(InTime(items, s.nodes), origin), dropped))
  {
    var all := s.nodes + IdsOf(NodesIn(items));
    ItemsWriteAll(items, s, origin, dropped);
    UpsertKeys(all, s.rels, StoreWrites.Live(RowsOf(EdgesIn(items), origin), dropped), k);
    UpsertKeys(all, s.rels, StoreWrites.Live(RowsOf(InTime(items, s.nodes), origin), dropped), k);
  }

  // ---- edges whose source is known or never comes ------------------------------------

  /** A source is among these nodes, or is none of those that come later. */
  ghost predicate Settled(sources: set<string>, ids: set<string>, later: seq<Node>) { sources * IdsOf(later) <= ids }

  ghost function SourcesOf(edges: seq<Edge>): set<string> { set e | e in edges :: e.src }

  lemma NodesOfRest(items: seq<Item>)
    requires items != []
    ensures IdsOf(NodesIn(items[..|items| - 1])) <= IdsOf(NodesIn(items))
  {
    IdsConcat(NodesIn(items[..|items| - 1]), items[|items| - 1].nodes);
  }

  lemma NodesFirstRest(items: seq<Item>, ids: set<string>)
    requires items != [] && NodesFirst(items, ids)
    ensures NodesFirst(items[..|items| - 1], ids)
    ensures forall e :: e in items[|items| - 1].edges ==> e.dst in ids + IdsOf(NodesIn(items))
  {
    var rest := items[..|items| - 1];
    forall i | 0 <= i < |rest| ensures rest[..i + 1] == items[..i + 1] && rest[i] == items[i] { }
    assert items[..|items| - 1 + 1] == items;
  }

  lemma {:induction false} TargetsKnown(items: seq<Item>, ids: set<string>)
    requires NodesFirst(items, ids)
    ensures forall e :: e in EdgesIn(items) ==> e.dst in ids + IdsOf(NodesIn(items))
    decreases |items|
  {
    if items != [] {
      NodesFirstRest(items, ids);
      TargetsKnown(items[..|items| - 1], ids);
      NodesOfRest(items);
    }
  }

  /** With settled sources and targets first, the edges in time are those that have their endpoints in the end. */
  lemma {:induction false} SettledInTime(items: seq<Item>, ids: set<string>)
    requires NodesFirst(items, ids) && Settled(SourcesOf(EdgesIn(items)), ids, NodesIn(items))
    ensures InTime(items, ids) == Select(EdgesIn(items), Both(ids + IdsOf(NodesIn(items))))
    decreases |items|
  {
    if items != [] {
      var rest, last := items[..|items| - 1], items[|items| - 1];
      var some, all := ids + IdsOf(NodesIn(rest)), ids + IdsOf(NodesIn(items));
      NodesFirstRest(items, ids);
      NodesOfRest(items);
      TargetsKnown(rest, ids);
      SettledInTime(rest, ids) by {
        forall v | v in SourcesOf(EdgesIn(rest)) * IdsOf(NodesIn(rest)) ensures v in ids {
          assert v in SourcesOf(EdgesIn(items)) && v in IdsOf(NodesIn(items));
        }
      }
      forall e | e in EdgesIn(rest) ensures Both(some)(e) == Both(all)(e) {
        assert e.src in SourcesOf(EdgesIn(items));
      }
      SelectAgree(EdgesIn(rest), Both(some), Both(all));
      SelectConcat(EdgesIn(rest), last.edges, Both(all));
    }
  }

  /** Every source of an emitted edge is a reference's source. */
  lemma {:induction false} EdgeHasSource(refs: seq<RawRef>, sy: Symbols, cv: Conventions, ids: set<string>, e: Edge)
    requires LookupsWithin(sy, cv, ids) && e in AddedBy(sy, cv, refs)
    ensures exists r :: r in refs && r.src == e.src
    decreases |refs|
  {
    var rest, last := refs[..|refs| - 1], refs[|refs| - 1];
    assert last in refs;
    if e in AddedBy(sy, cv, rest) {
      EdgeHasSource(rest, sy, cv, ids, e);
    } else {
      EdgesAreFair(sy, cv, last, ids);
    }
  }

  lemma SourcesKnown(refs: seq<RawRef>, sy: Symbols, cv: Conventions, ids: set<string>)
    requires LookupsWithin(sy, cv, ids)
    ensures SourcesOf(AddedBy(sy, cv, refs)) <= SourcesIn(refs)
  {
    forall e | e in AddedBy(sy, cv, refs) ensures e.src in SourcesIn(refs) {
      EdgeHasSource(refs, sy, cv, ids, e);
    }
  }

  ghost function SourcesIn(refs: seq<RawRef>): set<string> { set r | r in refs :: r.src }

  lemma {:induction false} EdgesOfItem(items: seq<Item>, i: nat, e: Edge)
    requires i < |items| && e in items[i].edges
    ensures e in EdgesIn(items)
    decreases |items|
  {
    if i < |items| - 1 { EdgesOfItem(items[..|items| - 1], i, e); }
  }

  /** Edges on known sources, in items whose targets come first, may be written item by item. */
  lemma TargetsAndSources(items: seq<Item>, ids: set<string>)
    requires NodesFirst(items, ids) && SourcesOf(EdgesIn(items)) <= ids
    ensures BackgroundWriter.EndpointsFirst(items, ids)
  {
    forall i, e | 0 <= i < |items| && e in items[i].edges
      ensures e.src in ids + IdsOf(NodesIn(items[..i + 1])) && e.dst in ids + IdsOf(NodesIn(items[..i + 1]))
    {
      EdgesOfItem(items, i, e);
      assert e.src in SourcesOf(EdgesIn(items));
    }
  }

  /** Every run of the writer that completes leaves the upserts of `edges`. */
  ghost predicate WritesAll(items: seq<Item>, before: Store, edges: seq<Edge>, origin: string, dropped: set<string>) {
    forall s :: BackgroundWriter.Reachable(items, s) && s.producer == BackgroundWriter.Completed ==>
      var stored := Replay(before, s.log, origin, dropped);
      && stored.nodes == before.nodes + IdsOf(NodesIn(items))
      && stored.rels == UpsertAll(stored.nodes, before.rels, StoreWrites.Live(RowsOf(edges, origin), dropped))
  }

  lemma CompletedRunsWrite(items: seq<Item>, before: Store, origin: string, dropped: set<string>)
    ensures WritesAll(items, before, InTime(items, before.nodes), origin, dropped)
  {
    ItemsWriteAll(items, before, origin, dropped);
    forall s | BackgroundWriter.Reachable(items, s) && s.producer == BackgroundWriter.Completed
      ensures s.log == BackgroundWriter.AllOps(items)
    {
      BackgroundWriter.CompletionDelivers(items, s);
    }
  }

  lemma CompletedRunsWriteAll(items: seq<Item>, before: Store, origin: string, dropped: set<string>)
    requires NodesFirst(items, before.nodes) && Settled(SourcesOf(EdgesIn(items)), before.nodes, NodesIn(items))
    ensures WritesAll(items, before, EdgesIn(items), origin, dropped)
  {
    CompletedRunsWrite(items, before, origin, dropped);
    SettledInTime(items, before.nodes);
    UnlinkedSkipped(before.nodes + IdsOf(NodesIn(items)), before.rels, EdgesIn(items), origin, dropped);
  }

  // ---- the counters ---------------------------------------------------------------------

  /** An edge that dangled when it was counted, on a source that did not come later, dangles for good. */
  lemma SettledIsNotLate(batches: seq<Batch>, ids: set<string>, later: seq<Node>)
    requires CountedLate(batches, ids) && Settled(SourcesOf(EdgesOf(batches)), ids, later)
    ensures !LateEndpoint(batches, ids + IdsOf(later))
  {
    forall b, e | b in batches && e in b.edges && Dangles(b.ids)(e) ensures Dangles(ids + IdsOf(later))(e) {
      EdgeOfBatch(batches, b, e);
      assert e.src in SourcesOf(EdgesOf(batches));
    }
  }

  lemma {:induction false} EdgeOfBatch(batches: seq<Batch>, b: Batch, e: Edge)
    requires b in batches && e in b.edges
    ensures e in EdgesOf(batches)
    decreases |batches|
  {
    if b != batches[|batches| - 1] {
      assert b in batches[..|batches| - 1];
      EdgeOfBatch(batches[..|batches| - 1], b, e);
    }
  }

  /** The counters the validator reads are those of a recount over all nodes. */
  ghost predicate TalliesRight(sink: Sink)
    reads sink, sink.tally
  {
    && sink.tally.dangling == CountOf(EdgesIn(sink.queued), Dangles(sink.knownIds))
    && sink.tally.total == |EdgesIn(sink.queued)|
  }

  lemma TalliesAreRight(sink: Sink)
    requires sink.Valid() && CountedLate(sink.batches, sink.extracted)
    requires Settled(SourcesOf(EdgesIn(sink.queued)), sink.extracted, NodesIn(sink.queued))
    ensures TalliesRight(sink)
  {
    SettledIsNotLate(sink.batches, sink.extracted, NodesIn(sink.queued));
    TallyIsRecount(sink.batches, sink.knownIds);
  }

  /** Edges on known sources do not dangle. */
  lemma NoneDangles(items: seq<Item>, ids: set<string>)
    requires NodesFirst(items, ids) && SourcesOf(EdgesIn(items)) <= ids
    ensures CountOf(EdgesIn(items), Dangles(ids + IdsOf(NodesIn(items)))) == 0
  {
    TargetsKnown(items, ids);
    forall e | e in EdgesIn(items) ensures !Dangles(ids + IdsOf(NodesIn(items)))(e) {
      assert e.src in SourcesOf(EdgesIn(items));
    }
    SelectNone(EdgesIn(items), Dangles(ids + IdsOf(NodesIn(items))));
  }

  // ---- the stage ---------------------------------------------------------------------------

  /** No reference starts at a node that some reference only synthesizes. */
  ghost predicate RefsSettled(refs: seq<RawRef>, sy: Symbols, cv: Conventions, ids: set<string>) {
    Settled(SourcesIn(refs), ids, NodesNeeded(sy, cv, refs))
  }

  lemma SettledStage(sink: Sink, refs: seq<RawRef>, sy: Symbols, cv: Conventions, rels: Rels, origin: string)
    requires sink.Valid() && CountedLate(sink.batches, sink.extracted) && NodesFirst(sink.queued, sink.extracted)
    requires LookupsWithin(sy, cv, sink.extracted) && RefsSettled(refs, sy, cv, sink.extracted)
    requires EdgesIn(sink.queued) == AddedBy(sy, cv, refs) && NodesIn(sink.queued) == NodesNeeded(sy, cv, refs)
    ensures TalliesRight(sink)
    ensures WritesAll(sink.queued, Store(sink.extracted, rels), AddedBy(sy, cv, refs), origin, cv.droppedTypes)
  {
    SourcesKnown(refs, sy, cv, sink.extracted);
    TalliesAreRight(sink);
    CompletedRunsWriteAll(sink.queued, Store(sink.extracted, rels), origin, cv.droppedTypes);
  }

  /** What the stage comes to: the edges in time are written; all that were asked for, if the references are settled;
      and if they all start at extracted nodes, no edge misses an endpoint. */
  ghost predicate StageRight(sink: Sink, refs: seq<RawRef>, sy: Symbols, cv: Conventions, rels: Rels, origin: string)
    reads sink, sink.tally
  {
    var before := Store(sink.extracted, rels);
    && WritesAll(sink.queued, before, InTime(sink.queued, sink.extracted), origin, cv.droppedTypes)
    && (RefsSettled(refs, sy, cv, sink.extracted) ==>
          TalliesRight(sink) && WritesAll(sink.queued, before, AddedBy(sy, cv, refs), origin, cv.droppedTypes))
    && (SourcesIn(refs) <= sink.extracted ==>
          sink.tally.dangling == 0 && BackgroundWriter.EndpointsFirst(sink.queued, sink.extracted))
  }

  lemma StageIsRight(sink: Sink, refs: seq<RawRef>, sy: Symbols, cv: Conventions, rels: Rels, origin: string)
    requires sink.Valid() && CountedLate(sink.batches, sink.extracted) && NodesFirst(sink.queued, sink.extracted)
    requires LookupsWithin(sy, cv, sink.extracted)
    requires EdgesIn(sink.queued) == AddedBy(sy, cv, refs) && NodesIn(sink.queued) == NodesNeeded(sy, cv, refs)
    ensures StageRight(sink, refs, sy, cv, rels, origin)
  {
    CompletedRunsWrite(sink.queued, Store(sink.extracted, rels), origin, cv.droppedTypes);
    if RefsSettled(refs, sy, cv, sink.extracted) {
      SettledStage(sink, refs, sy, cv, rels, origin);
    }
    if SourcesIn(refs) <= sink.extracted {
      SourcesKnown(refs, sy, cv, sink.extracted);
      NoneDangles(sink.queued, sink.extracted);
      TargetsAndSources(sink.queued, sink.extracted);
    }
  }

  /** The pass has queued, kept and counted what the references ask for, and once the writer completes it is stored. */
  ghost predicate StageDone(pass: Pass, refs: seq<RawRef>, rels: Rels, origin: string)
    reads pass, pass.resolver, pass.sink, pass.sink.tally
  {
    && pass.Valid() && pass.resolver.outEdges == Kept(EdgesIn(pass.sink.queued))
    && Progress(refs, pass.resolver.sy, pass.resolver.cv, EdgesIn(pass.sink.queued), NodesIn(pass.sink.queued),
         pass.resolver.registered)
    && StageRight(pass.sink, refs, pass.resolver.sy, pass.resolver.cv, rels, origin)
  }

  method ResolveAll(pass: Pass, refs: seq<RawRef>, ghost rels: Rels, ghost origin: string)
    requires pass.Valid() && LookupsWithin(pass.resolver.sy, pass.resolver.cv, pass.sink.extracted) && pass.Done([])
    modifies pass, pass.resolver, pass.sink, pass.sink.tally
    ensures StageDone(pass, refs, rels, origin) && IdsOf(pass.resolver.extraNodes) <= pass.sink.knownIds
  {
    pass.Run(refs);
    StageIsRight(pass.sink, refs, pass.resolver.sy, pass.resolver.cv, rels, origin);
  }

  /**
    * Resolve, stream, write: what is queued are the edges the references ask for, and once the stage completes without
    * raising, the store holds their upserts in order. The synthesized nodes are already known, so none of them joins
    * the node list in memory.
    */
  method ResolveAndWrite(pass: Pass, refs: seq<RawRef>, allNodes: seq<Node>, ghost rels: Rels, ghost origin: string)
    returns (all: seq<Node>)
    requires pass.Valid() && LookupsWithin(pass.resolver.sy, pass.resolver.cv, pass.sink.extracted) && pass.Done([])
    modifies pass, pass.resolver, pass.sink, pass.sink.tally
    ensures all == allNodes && StageDone(pass, refs, rels, origin)
  {
    ResolveAll(pass, refs, rels, origin);
    all := ExtendKnown(allNodes, pass.sink.knownIds, pass.resolver.extraNodes);
  }

  /** Nodes whose ids are known already are not accepted again. */
  method ExtendKnown(allNodes: seq<Node>, knownIds: set<string>, extra: seq<Node>) returns (all: seq<Node>)
    requires IdsOf(extra) <= knownIds
    ensures all == allNodes
  {
    NoneAccepted(extra, knownIds);
    var known, accepted;
    all, known, accepted := CanonicalIr.ExtendUnique(allNodes, knownIds, extra);
  }

  /** Indices, import tables, supertypes and the table of full names are what the inputs say they are; so every
      reference means what its type says. */
  ghost predicate TablesRight(sy: Symbols, cv: Conventions, nodes: seq<Node>, edges: seq<Edge>, refs: seq<RawRef>,
                              packages: map<string, string>, given: Conventions) {
    && Built(sy.ix, nodes) && sy.ix.scopes.parents == Containers(edges) && sy.im.packages == packages
    && TablesSay(sy.im, refs) && SupersOf(sy.supers, WorldOf(sy, nodes), edges, refs)
    && EdgeTargets.FqnTable(cv.classByFqn, nodes) && cv == given.(classByFqn := cv.classByFqn)
    && AllMean(sy, cv, nodes)
  }

  method MakeTables(nodes: seq<Node>, edges: seq<Edge>, refs: seq<RawRef>, packages: map<string, string>,
                    given: Conventions) returns (sy: Symbols, cv: Conventions)
    requires forall ref :: AllIn(IdsOf(nodes), given.matchEndpoints(ref))
    ensures TablesRight(sy, cv, nodes, edges, refs, packages, given) && LookupsWithin(sy, cv, IdsOf(nodes))
  {
    var ix := BuildIndices(nodes, edges);
    var table := EdgeTargets.ClassesByFqn(nodes);
    EdgeTargets.TableWithin(table, nodes);
    sy := Prepare(ix, nodes, edges, refs, packages);
    cv := given.(classByFqn := table);
    EachMeans(sy, cv, nodes);
    BuiltWithin(sy, cv, nodes);
  }

  /** The stage from its inputs: the tables, a new resolver and a new sink. */
  method ResolveNodes(nodes: seq<Node>, edges: seq<Edge>, refs: seq<RawRef>, packages: map<string, string>,
                      given: Conventions, limit: nat, ghost rels: Rels, ghost origin: string)
    returns (kept: seq<Edge>, queued: seq<Item>, sy: Symbols, cv: Conventions)
    requires forall ref :: AllIn(IdsOf(nodes), given.matchEndpoints(ref))
    ensures TablesRight(sy, cv, nodes, edges, refs, packages, given)
    ensures EdgesIn(queued) == AddedBy(sy, cv, refs) && NodesIn(queued) == NodesNeeded(sy, cv, refs)
    ensures kept == Kept(AddedBy(sy, cv, refs)) && Retains(kept, AddedBy(sy, cv, refs))
    ensures WritesAll(queued, Store(IdsOf(nodes), rels), InTime(queued, IdsOf(nodes)), origin, cv.droppedTypes)
    ensures RefsSettled(refs, sy, cv, IdsOf(nodes)) ==>
      WritesAll(queued, Store(IdsOf(nodes), rels), AddedBy(sy, cv, refs), origin, cv.droppedTypes)
  {
    sy, cv := MakeTables(nodes, edges, refs, packages, given);
    var pass := NewPass(sy, cv, nodes, limit);
    var all := ResolveAndWrite(pass, refs, nodes, rels, origin);
    kept, queued := pass.resolver.outEdges, pass.sink.queued;
    KeptRetains(AddedBy(sy, cv, refs));
  }

  method NewPass(sy: Symbols, cv: Conventions, nodes: seq<Node>, limit: nat) returns (pass: Pass)
    ensures fresh(pass) && fresh(pass.resolver) && fresh(pass.sink) && fresh(pass.sink.tally)
    ensures pass.resolver.sy == sy && pass.resolver.cv == cv && pass.sink.extracted == IdsOf(nodes)
    ensures pass.Valid() && pass.Done([])
  {
    var resolver := new Resolver(sy, cv);
    var sink := new Sink(IdsOf(nodes));
    pass := new Pass(resolver, sink, limit);
    NothingDone(sy, cv);
  }

  lemma NoneAccepted(nodes: seq<Node>, known: set<string>)
    requires IdsOf(nodes) <= known
    ensures CanonicalIr.Dedup(CanonicalIr.NodeKey(), known, nodes) == []
  {
    CanonicalIr.KeysAreIds(nodes);
    CanonicalIr.DedupAllKnown(CanonicalIr.NodeKey(), known, nodes);
  }
}
