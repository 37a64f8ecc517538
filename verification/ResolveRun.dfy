/** A whole resolve pass: every reference once, with finished slices of edges handed to the sink on the way. */
module ResolveRun {
  import opened GraphModel
  import opened Narrowing
  import opened ReferenceEdges
  import opened CoverageLedger
  import opened EdgeStats
  import opened StreamSink
  import opened RetainedEdges
  import opened ResolveRefs

  /** Every edge of an item lands on a node known before the pass or handed over no later than the item. */
  ghost predicate NodesFirst(items: seq<Item>, ids: set<string>) {
    forall i :: 0 <= i < |items| ==>
      forall e :: e in items[i].edges ==> e.dst in ids + IdsOf(NodesIn(items[..i + 1]))
  }

  lemma NodesFirstNext(items: seq<Item>, item: Item, ids: set<string>)
    requires NodesFirst(items, ids)
    requires forall e :: e in item.edges ==> e.dst in ids + IdsOf(NodesIn(items + [item]))
    ensures NodesFirst(items + [item], ids)
  {
    var all := items + [item];
    forall i | 0 <= i < |all|
      ensures forall e :: e in all[i].edges ==> e.dst in ids + IdsOf(NodesIn(all[..i + 1]))
    {
      if i < |items| {
        assert all[..i + 1] == items[..i + 1];
      } else {
        assert all[..i + 1] == all;
      }
    }
  }

  // ---- what a list of references comes to -----------------------------------

  /** The edges the references ask for, one after another. */
  ghost function AddedBy(sy: Symbols, cv: Conventions, refs: seq<RawRef>): seq<Edge> {
    if refs == [] then [] else AddedBy(sy, cv, refs[..|refs| - 1]) + AddedFor(sy, cv, refs[|refs| - 1])
  }

  ghost function KeysNeeded(sy: Symbols, cv: Conventions, refs: seq<RawRef>): set<SynthKey> {
    if refs == [] then {} else KeysNeeded(sy, cv, refs[..|refs| - 1]) + KeysOf(NeedFor(sy, cv, refs[|refs| - 1]))
  }

  /** The nodes they need synthesized, each on first use. */
  ghost function NodesNeeded(sy: Symbols, cv: Conventions, refs: seq<RawRef>): seq<Node> {
    if refs == [] then []
    else var rest := refs[..|refs| - 1];
      NodesNeeded(sy, cv, rest) + NewNodes(KeysNeeded(sy, cv, rest), NeedFor(sy, cv, refs[|refs| - 1]))
  }

  ghost function EntriesOf(sy: Symbols, cv: Conventions, refs: seq<RawRef>): seq<Entry> {
    seq(|refs|, i requires 0 <= i < |refs| => Entry(refs[i].rtype, AccountFor(sy, cv, refs[i])))
  }

  /** Where a pass stands: exactly what the references processed ask for has been added and synthesized. */
  ghost predicate Progress(refs: seq<RawRef>, sy: Symbols, cv: Conventions, emitted: seq<Edge>, nodes: seq<Node>,
                           keys: set<SynthKey>) {
    emitted == AddedBy(sy, cv, refs) && nodes == NodesNeeded(sy, cv, refs) && keys == KeysNeeded(sy, cv, refs)
  }

  /** The counters tell exactly how the references were settled. */
  ghost predicate CountsTell(l: Ledger, log: seq<Entry>) {
    Matches(l, WEAK, log) && GrandTotal(l) == |log| + Fallbacks(log)
  }

  lemma ProgressNext(refs: seq<RawRef>, sy: Symbols, cv: Conventions, emitted: seq<Edge>, nodes: seq<Node>,
                     keys: set<SynthKey>, ref: RawRef)
    requires Progress(refs, sy, cv, emitted, nodes, keys)
    ensures var need := NeedFor(sy, cv, ref);
      Progress(refs + [ref], sy, cv, emitted + AddedFor(sy, cv, ref), nodes + NewNodes(keys, need), keys + KeysOf(need))
  {
    assert (refs + [ref])[..|refs|] == refs;
  }

  lemma CountsNext(l: Ledger, log: seq<Entry>, e: Entry)
    requires CountsTell(l, log)
    ensures CountsTell(Settle(Retotal(l, e.rtype, 1), WEAK, e.rtype, e.account), log + [e])
  {
    SettleMatches(l, WEAK, log, e);
    GrandTotalGrows(l, WEAK, log, e);
  }

  lemma EntriesNext(refs: seq<RawRef>, sy: Symbols, cv: Conventions, ref: RawRef)
    ensures EntriesOf(sy, cv, refs + [ref]) == EntriesOf(sy, cv, refs) + [Entry(ref.rtype, AccountFor(sy, cv, ref))]
  {
  }

  /** The edge and node lists with the marks up to which they were handed over, and the queue they were handed to. */
  datatype Stream = Stream(out: seq<Edge>, doneEdges: nat, nodes: seq<Node>, doneNodes: nat, queued: seq<Item>)

  /** The flushed prefix of the edge list is what is kept of the queued edges; the rest still waits. */
  ghost predicate Aligned(s: Stream, ids: set<string>) {
    && s.doneEdges <= |s.out| && s.doneNodes <= |s.nodes|
    && s.out[..s.doneEdges] == Kept(EdgesIn(s.queued))
    && s.nodes[..s.doneNodes] == NodesIn(s.queued)
    && NodesFirst(s.queued, ids)
    && forall e :: e in s.out[s.doneEdges..] ==> e.dst in ids + IdsOf(s.nodes)
  }

  /** Every edge emitted so far, in order. */
  ghost function EmittedIn(s: Stream): seq<Edge>
    requires s.doneEdges <= |s.out|
  {
    EdgesIn(s.queued) + s.out[s.doneEdges..]
  }

  function Flushed(s: Stream): Stream
    requires s.doneEdges <= |s.out| && s.doneNodes <= |s.nodes|
  {
    var batch := s.out[s.doneEdges..];
    var out := s.out[..s.doneEdges] + Kept(batch);
    Stream(out, |out|, s.nodes, |s.nodes|, Enqueued(s.queued, s.nodes[s.doneNodes..], batch))
  }

  lemma FlushKeepsNodesFirst(s: Stream, ids: set<string>)
    requires Aligned(s, ids)
    ensures NodesFirst(Flushed(s).queued, ids)
    ensures NodesIn(Flushed(s).queued) == s.nodes
  {
    var batch, newNodes := s.out[s.doneEdges..], s.nodes[s.doneNodes..];
    assert s.nodes == s.nodes[..s.doneNodes] + newNodes;
    EnqueuedAll(s.queued, newNodes, batch);
    if newNodes != [] || batch != [] {
      NodesFirstNext(s.queued, Item(newNodes, batch), ids);
    }
  }

  lemma FlushKeeps(s: Stream, ids: set<string>)
    requires Aligned(s, ids)
    ensures Aligned(Flushed(s), ids) && EmittedIn(Flushed(s)) == EmittedIn(s)
  {
    var batch := s.out[s.doneEdges..];
    FlushKeepsNodesFirst(s, ids);
    EnqueuedAll(s.queued, s.nodes[s.doneNodes..], batch);
    KeptConcat(EdgesIn(s.queued), batch);
    var f := Flushed(s);
    assert f.nodes[..f.doneNodes] == f.nodes && f.out[..f.doneEdges] == f.out && f.out[f.doneEdges..] == [];
  }

  lemma AppendKeeps(s: Stream, added: seq<Edge>, newNodes: seq<Node>, ids: set<string>)
    requires Aligned(s, ids)
    requires forall e :: e in added ==> e.dst in ids + IdsOf(s.nodes + newNodes)
    ensures var s' := s.(out := s.out + added, nodes := s.nodes + newNodes);
      Aligned(s', ids) && EmittedIn(s') == EmittedIn(s) + added
  {
    var s' := s.(out := s.out + added, nodes := s.nodes + newNodes);
    assert s'.out[..s.doneEdges] == s.out[..s.doneEdges] && s'.nodes[..s.doneNodes] == s.nodes[..s.doneNodes];
    assert s'.out[s.doneEdges..] == s.out[s.doneEdges..] + added;
    IdsConcat(s.nodes, newNodes);
  }

  /** When it was counted, every edge's target was known, and so was every extracted node. */
  ghost predicate CountedLate(batches: seq<Batch>, ids: set<string>) {
    forall b :: b in batches ==> ids <= b.ids && forall e :: e in b.edges ==> e.dst in b.ids
  }

  /** The node a reference needs is known once the reference has been taken. */
  lemma NeedIsKnown(sy: Symbols, cv: Conventions, ref: RawRef, registered: set<SynthKey>, nodes: seq<Node>)
    requires AllHandedOut(cv, registered, nodes) && KeysOf(Needed(sy, cv, ref)) <= registered
    ensures NeededIds(sy, cv, ref) <= IdsOf(nodes)
  {
    var need := Needed(sy, cv, ref);
    if need.Some? {
      assert need.value.0 in registered && IdOfKey(cv, need.value.0) == need.value.1.id;
    }
  }

  class Pass {
    const resolver: Resolver
    const sink: Sink
    const limit: nat
    var flushedEdges: nat
    var flushedNodes: nat

    constructor (resolver: Resolver, sink: Sink, limit: nat)
      ensures this.resolver == resolver && this.sink == sink && this.limit == limit
      ensures flushedEdges == flushedNodes == 0
    {
      this.resolver, this.sink, this.limit := resolver, sink, limit;
      flushedEdges, flushedNodes := 0, 0;
    }

    ghost function Now(): Stream
      reads this, resolver, sink
    {
      Stream(resolver.outEdges, flushedEdges, resolver.extraNodes, flushedNodes, sink.queued)
    }

    ghost predicate Valid()
      reads this, resolver, sink, sink.tally
    {
      resolver.Valid() && sink.Valid() && Aligned(Now(), sink.extracted) && CountedLate(sink.batches, sink.extracted)
    }

    method Flush()
      requires Valid()
      modifies this, resolver`outEdges, sink, sink.tally
      ensures Valid()
      ensures Now() == if old(flushedEdges == |resolver.outEdges| && flushedNodes == |resolver.extraNodes|)
                          then old(Now()) else Flushed(old(Now()))
      ensures EmittedIn(Now()) == EmittedIn(old(Now()))
      ensures flushedEdges == |resolver.outEdges| && flushedNodes == |resolver.extraNodes|
    {
      if flushedEdges == |resolver.outEdges| && flushedNodes == |resolver.extraNodes| {
        return;
      }
      FlushKeeps(Now(), sink.extracted);
      HandOver();
    }

    method HandOver()
      requires Valid()
      modifies this, resolver`outEdges, sink, sink.tally
      ensures Valid() && Now() == Flushed(old(Now()))
    {
      FlushKeeps(Now(), sink.extracted);
      var keep := GiveTail();
      ReplaceTail(keep);
      assert Now() == Flushed(old(Now()));
    }

    /** The stand-ins take the place of what was handed over. */
    method ReplaceTail(keep: seq<Edge>)
      requires resolver.Valid() && flushedEdges <= |resolver.outEdges|
      modifies this, resolver`outEdges
      ensures resolver.Valid() && resolver.outEdges == old(resolver.outEdges)[..old(flushedEdges)] + keep
      ensures flushedEdges == |resolver.outEdges| && flushedNodes == |resolver.extraNodes|
    {
      resolver.outEdges := resolver.outEdges[..flushedEdges] + keep;
      flushedEdges := |resolver.outEdges|;
      flushedNodes := |resolver.extraNodes|;
    }

    /** The sink takes what is not flushed yet. */
    method GiveTail() returns (keep: seq<Edge>)
      requires Valid()
      modifies sink, sink.tally
      ensures sink.Valid() && CountedLate(sink.batches, sink.extracted)
      ensures keep == Kept(resolver.outEdges[flushedEdges..])
      ensures sink.queued == Enqueued(old(sink.queued), resolver.extraNodes[flushedNodes..],
                                      resolver.outEdges[flushedEdges..])
    {
      FlushKeepsNodesFirst(Now(), sink.extracted);
      FlushCounts(Now(), sink.extracted, sink.batches, sink.extracted + IdsOf(resolver.extraNodes));
      keep := sink.Take(resolver.extraNodes[flushedNodes..], resolver.outEdges[flushedEdges..]);
    }

    /** The reference itself. */
    method Advance(ref: RawRef)
      requires Valid() && LookupsWithin(resolver.sy, resolver.cv, sink.extracted)
      modifies resolver
      ensures Valid()
      ensures EmittedIn(Now()) == EmittedIn(old(Now())) + AddedFor(resolver.sy, resolver.cv, ref)
      ensures var need := NeedFor(resolver.sy, resolver.cv, ref);
        && resolver.extraNodes == old(resolver.extraNodes) + NewNodes(old(resolver.registered), need)
        && resolver.registered == old(resolver.registered) + KeysOf(need)
      ensures resolver.coverage
        == Settle(Retotal(old(resolver.coverage), ref.rtype, 1), WEAK, ref.rtype,
                  AccountFor(resolver.sy, resolver.cv, ref))
    {
      ghost var s, registered := Now(), resolver.registered;
      ghost var a := resolver.Process(ref);
      if ref.rtype !in resolver.cv.droppedTypes {
        EdgesAreFair(resolver.sy, resolver.cv, ref, sink.extracted);
        NeedIsKnown(resolver.sy, resolver.cv, ref, resolver.registered, resolver.extraNodes);
      }
      AppendKeeps(s, AddedFor(resolver.sy, resolver.cv, ref),
                  NewNodes(registered, NeedFor(resolver.sy, resolver.cv, ref)), sink.extracted);
    }

    method FlushWhenDue()
      requires Valid()
      modifies this, resolver`outEdges, sink, sink.tally
      ensures Valid() && EmittedIn(Now()) == EmittedIn(old(Now()))
    {
      if |resolver.outEdges| - flushedEdges >= limit {
        Flush();
      }
    }

    /** The pass has done what `refs` ask for. */
    ghost predicate Done(refs: seq<RawRef>)
      requires flushedEdges <= |resolver.outEdges|
      reads this, resolver, sink
    {
      && Progress(refs, resolver.sy, resolver.cv, EmittedIn(Now()), resolver.extraNodes, resolver.registered)
      && CountsTell(resolver.coverage, EntriesOf(resolver.sy, resolver.cv, refs))
    }

    /** One turn of the main loop: what is due is handed over, then the reference is taken. */
    method Step(ref: RawRef)
      requires Valid() && LookupsWithin(resolver.sy, resolver.cv, sink.extracted)
      modifies this, resolver, sink, sink.tally
      ensures Valid()
      ensures EmittedIn(Now()) == EmittedIn(old(Now())) + AddedFor(resolver.sy, resolver.cv, ref)
      ensures var need := NeedFor(resolver.sy, resolver.cv, ref);
        && resolver.extraNodes == old(resolver.extraNodes) + NewNodes(old(resolver.registered), need)
        && resolver.registered == old(resolver.registered) + KeysOf(need)
      ensures resolver.coverage
        == Settle(Retotal(old(resolver.coverage), ref.rtype, 1), WEAK, ref.rtype,
                  AccountFor(resolver.sy, resolver.cv, ref))
    {
      FlushWhenDue();
      Advance(ref);
    }

    /** The main loop: each reference takes one turn, in order. */
    method Turns(refs: seq<RawRef>)
      requires Valid() && LookupsWithin(resolver.sy, resolver.cv, sink.extracted) && Done([])
      modifies this, resolver, sink, sink.tally
      ensures Valid() && Done(refs)
    {
      for i := 0 to |refs|
        invariant Valid() && Done(refs[..i])
      {
        ProgressNext(refs[..i], resolver.sy, resolver.cv, EmittedIn(Now()), resolver.extraNodes, resolver.registered,
                     refs[i]);
        CountsNext(resolver.coverage, EntriesOf(resolver.sy, resolver.cv, refs[..i]),
          Entry(refs[i].rtype, AccountFor(resolver.sy, resolver.cv, refs[i])));
        EntriesNext(refs[..i], resolver.sy, resolver.cv, refs[i]);
        Step(refs[i]);
        TakeNext(refs, i);
      }
      TakeAll(refs);
    }

    /**
      * The whole pass; its last flush leaves nothing waiting. What is queued, kept, synthesized and counted is exactly
      * what the references ask for, whatever the flush limit.
      */
    method Run(refs: seq<RawRef>)
      requires Valid() && LookupsWithin(resolver.sy, resolver.cv, sink.extracted) && Done([])
      modifies this, resolver, sink, sink.tally
      ensures Valid()
      ensures Progress(refs, resolver.sy, resolver.cv, EdgesIn(sink.queued), NodesIn(sink.queued), resolver.registered)
      ensures CountsTell(resolver.coverage, EntriesOf(resolver.sy, resolver.cv, refs))
      ensures NodesIn(sink.queued) == resolver.extraNodes
      ensures resolver.outEdges == Kept(EdgesIn(sink.queued))
      ensures Retains(resolver.outEdges, EdgesIn(sink.queued))
      ensures NodesFirst(sink.queued, sink.extracted)
    {
      Turns(refs);
      Drain();
      KeptRetains(EdgesIn(sink.queued));
    }

    /** The last flush hands over whatever waits. */
    method Drain()
      requires Valid()
      modifies this, resolver`outEdges, sink, sink.tally
      ensures Valid() && EdgesIn(sink.queued) == EmittedIn(old(Now()))
      ensures NodesIn(sink.queued) == resolver.extraNodes
      ensures resolver.outEdges == Kept(EdgesIn(sink.queued))
      ensures NodesFirst(sink.queued, sink.extracted)
    {
      Flush();
      NothingWaits(Now(), sink.extracted);
    }
  }

  /** The batch handed over is counted when its targets are known. */
  lemma FlushCounts(s: Stream, ids: set<string>, batches: seq<Batch>, known: set<string>)
    requires Aligned(s, ids) && CountedLate(batches, ids) && known == ids + IdsOf(s.nodes)
    ensures CountedLate(batches + [Batch(s.out[s.doneEdges..], known)], ids)
  {
  }

  /** A resolver and a sink that have seen nothing make a pass that has done nothing. */
  lemma NothingDone(sy: Symbols, cv: Conventions)
    ensures Progress([], sy, cv, [], [], {}) && CountsTell(map[], EntriesOf(sy, cv, []))
  {
  }

  lemma TakeNext(refs: seq<RawRef>, i: nat)
    requires i < |refs|
    ensures refs[..i + 1] == refs[..i] + [refs[i]]
  {
  }

  lemma TakeAll(refs: seq<RawRef>)
    ensures refs[..|refs|] == refs
  {
  }

  lemma NothingWaits(s: Stream, ids: set<string>)
    requires Aligned(s, ids) && s.doneEdges == |s.out| && s.doneNodes == |s.nodes|
    ensures EmittedIn(s) == EdgesIn(s.queued) && s.nodes == NodesIn(s.queued) && s.out == Kept(EdgesIn(s.queued))
  {
    assert s.out[s.doneEdges..] == [] && s.out[..s.doneEdges] == s.out && s.nodes[..s.doneNodes] == s.nodes;
  }
}
