/** Merging extraction bundles: the first record under each key is kept, in order. */
module CanonicalIr {
  import opened GraphModel

  datatype Bundle = Bundle(nodes: seq<Node>, edges: seq<Edge>, refs: seq<RawRef>)

  type EdgeKey = (string, string, string, int, int, string)
  type RefKey = (string, string, string, string, int, int)

  function NodeKey(): Node -> string { (n: Node) => n.id }

  function KeyOfEdge(): Edge -> EdgeKey {
    (e: Edge) => (e.etype, e.src, e.dst, e.evidenceLine, e.evidenceCol, e.evidenceFile)
  }

  function KeyOfRef(): RawRef -> RefKey {
    (r: RawRef) => (r.rtype, r.src, r.targetName, r.refFile, r.refLine, r.refCol)
  }

  /** The records of `xs` whose key is neither in `seen` nor borne by an earlier one. */
  function Dedup<T, K(==)>(key: T -> K, seen: set<K>, xs: seq<T>): seq<T>
    decreases xs
  {
    if xs == [] then []
    else if key(xs[0]) in seen then Dedup(key, seen, xs[1..])
    else [xs[0]] + Dedup(key, seen + {key(xs[0])}, xs[1..])
  }

  ghost function KeysOf<T, K>(key: T -> K, xs: seq<T>): set<K> {
    if xs == [] then {} else {key(xs[0])} + KeysOf(key, xs[1..])
  }

  lemma {:induction false} KeysConcat<T, K>(key: T -> K, a: seq<T>, b: seq<T>)
    ensures KeysOf(key, a + b) == KeysOf(key, a) + KeysOf(key, b)
  {
    if a == [] {
      assert a + b == b;
    } else {
      assert (a + b)[1..] == a[1..] + b;
      KeysConcat(key, a[1..], b);
    }
  }

  lemma {:induction false} DedupConcat<T, K>(key: T -> K, seen: set<K>, a: seq<T>, b: seq<T>)
    ensures Dedup(key, seen, a + b) == Dedup(key, seen, a) + Dedup(key, seen + KeysOf(key, a), b)
    decreases a
  {
    if a == [] {
      assert a + b == b && seen + KeysOf(key, a) == seen;
    } else {
      assert (a + b)[1..] == a[1..] + b;
      if key(a[0]) in seen {
        DedupConcat(key, seen, a[1..], b);
        assert seen + KeysOf(key, a[1..]) == seen + KeysOf(key, a);
      } else {
        DedupConcat(key, seen + {key(a[0])}, a[1..], b);
        assert seen + {key(a[0])} + KeysOf(key, a[1..]) == seen + KeysOf(key, a);
      }
    }
  }

  /** A record is kept exactly when no earlier record bears its key. */
  lemma KeptIffFirst<T, K>(key: T -> K, xs: seq<T>, x: T)
    ensures Dedup(key, {}, xs + [x]) == Dedup(key, {}, xs) + if key(x) in KeysOf(key, xs) then [] else [x]
  {
    DedupConcat(key, {}, xs, [x]);
    assert {} + KeysOf(key, xs) == KeysOf(key, xs);
    assert [x][1..] == [];
  }

  lemma {:induction false} DedupKeys<T, K>(key: T -> K, seen: set<K>, xs: seq<T>)
    ensures KeysOf(key, Dedup(key, seen, xs)) == KeysOf(key, xs) - seen
    decreases xs
  {
    if xs != [] {
      if key(xs[0]) in seen {
        DedupKeys(key, seen, xs[1..]);
      } else {
        DedupKeys(key, seen + {key(xs[0])}, xs[1..]);
        var rest := Dedup(key, seen + {key(xs[0])}, xs[1..]);
        assert ([xs[0]] + rest)[1..] == rest;
      }
    }
  }

  /** Merging what an earlier, laxer merge left gives what one merge would. */
  lemma {:induction false} DedupTwice<T, K>(key: T -> K, lax: set<K>, seen: set<K>, xs: seq<T>)
    requires lax <= seen
    ensures Dedup(key, seen, Dedup(key, lax, xs)) == Dedup(key, seen, xs)
    decreases xs
  {
    if xs != [] {
      var k := key(xs[0]);
      if k in lax {
        DedupTwice(key, lax, seen, xs[1..]);
      } else {
        var rest := Dedup(key, lax + {k}, xs[1..]);
        assert ([xs[0]] + rest)[1..] == rest;
        DedupTwice(key, lax + {k}, seen + {k}, xs[1..]);
        if k in seen { assert seen + {k} == seen; }
      }
    }
  }

  function EachMerged<T, K(==)>(key: T -> K, batches: seq<seq<T>>): seq<seq<T>> {
    if batches == [] then [] else [Dedup(key, {}, batches[0])] + EachMerged(key, batches[1..])
  }

  lemma {:induction false} DedupAllKnown<T, K>(key: T -> K, seen: set<K>, xs: seq<T>)
    requires KeysOf(key, xs) <= seen
    ensures Dedup(key, seen, xs) == []
  {
    if xs != [] { DedupAllKnown(key, seen, xs[1..]); }
  }

  /** Two edges are the same record if they differ in confidence and strategy only; two references, if only in what
      narrows their target. */
  ghost predicate SameEdge(a: Edge, b: Edge) { a == b.(confidence := a.confidence, strategy := a.strategy) }

  ghost predicate SameRef(a: RawRef, b: RawRef) {
    a == b.(kindHint := a.kindHint, recv := a.recv, recvType := a.recvType, importFqn := a.importFqn,
            httpMethod := a.httpMethod, callArity := a.callArity, strategyHint := a.strategyHint)
  }

  lemma {:induction false} KeyBorne<T, K>(key: T -> K, xs: seq<T>, k: K)
    ensures k in KeysOf(key, xs) <==> exists i :: 0 <= i < |xs| && key(xs[i]) == k
  {
    if xs != [] {
      KeyBorne(key, xs[1..], k);
      if i :| 0 <= i < |xs| && key(xs[i]) == k { assert i > 0 ==> xs[1..][i - 1] == xs[i]; }
      if i :| 0 <= i < |xs[1..]| && key(xs[1..][i]) == k { assert xs[i + 1] == xs[1..][i]; }
    }
  }

  /** An edge is kept exactly when no earlier one is the same record. */
  lemma EdgeKeptIffNew(edges: seq<Edge>, e: Edge)
    ensures Dedup(KeyOfEdge(), {}, edges + [e])
         == Dedup(KeyOfEdge(), {}, edges) + if exists i :: 0 <= i < |edges| && SameEdge(edges[i], e) then [] else [e]
  {
    KeptIffFirst(KeyOfEdge(), edges, e);
    KeyBorne(KeyOfEdge(), edges, KeyOfEdge()(e));
    if i :| 0 <= i < |edges| && KeyOfEdge()(edges[i]) == KeyOfEdge()(e) { assert SameEdge(edges[i], e); }
  }

  lemma RefKeptIffNew(refs: seq<RawRef>, r: RawRef)
    ensures Dedup(KeyOfRef(), {}, refs + [r])
         == Dedup(KeyOfRef(), {}, refs) + if exists i :: 0 <= i < |refs| && SameRef(refs[i], r) then [] else [r]
  {
    KeptIffFirst(KeyOfRef(), refs, r);
    KeyBorne(KeyOfRef(), refs, KeyOfRef()(r));
    if i :| 0 <= i < |refs| && KeyOfRef()(refs[i]) == KeyOfRef()(r) { assert SameRef(refs[i], r); }
  }

  lemma NodeKeptIffNew(nodes: seq<Node>, n: Node)
    ensures Dedup(NodeKey(), {}, nodes + [n])
         == Dedup(NodeKey(), {}, nodes) + if exists i :: 0 <= i < |nodes| && nodes[i].id == n.id then [] else [n]
  {
    KeptIffFirst(NodeKey(), nodes, n);
    KeyBorne(NodeKey(), nodes, n.id);
  }

  // ---- references streamed batch by batch ---------------------------------

  /** A stricter merge keeps no more, and as many only when it knows none of the keys. */
  lemma {:induction false} StricterKeepsFewer<T, K>(key: T -> K, lax: set<K>, more: set<K>, xs: seq<T>)
    requires lax !! more
    ensures |Dedup(key, lax + more, xs)| <= |Dedup(key, lax, xs)|
    ensures |Dedup(key, lax + more, xs)| == |Dedup(key, lax, xs)| <==> KeysOf(key, xs) !! more
    ensures KeysOf(key, xs) !! more ==> Dedup(key, lax + more, xs) == Dedup(key, lax, xs)
    decreases xs
  {
    if xs != [] {
      var k := key(xs[0]);
      if k in lax {
        StricterKeepsFewer(key, lax, more, xs[1..]);
      } else if k in more {
        StricterKeepsFewer(key, lax + {k}, more - {k}, xs[1..]);
        assert (lax + {k}) + (more - {k}) == lax + more;
      } else {
        StricterKeepsFewer(key, lax + {k}, more, xs[1..]);
        assert (lax + {k}) + more == (lax + more) + {k};
      }
    }
  }

  /** No key occurs in two batches, nor in `seen` and a batch. */
  ghost predicate KeysApart<T, K>(key: T -> K, seen: set<K>, batches: seq<seq<T>>)
    decreases batches
  {
    batches == [] || (KeysOf(key, batches[0]) !! seen && KeysApart(key, seen + KeysOf(key, batches[0]), batches[1..]))
  }

  /** Concatenating the merged batches gives the global merge exactly when no key crosses batches. */
  lemma {:induction false} StreamedIsMerged<T, K>(key: T -> K, seen: set<K>, batches: seq<seq<T>>)
    ensures |Dedup(key, seen, Flatten(batches))| <= |Flatten(EachMerged(key, batches))|
    ensures KeysApart(key, seen, batches) ==> Flatten(EachMerged(key, batches)) == Dedup(key, seen, Flatten(batches))
    ensures |Dedup(key, seen, Flatten(batches))| == |Flatten(EachMerged(key, batches))| ==>
      KeysApart(key, seen, batches)
    decreases batches
  {
    if batches != [] {
      var b, rest := batches[0], batches[1..];
      assert EachMerged(key, batches)[1..] == EachMerged(key, rest);
      DedupConcat(key, seen, b, Flatten(rest));
      StricterKeepsFewer(key, {}, seen, b);
      assert {} + seen == seen;
      StreamedIsMerged(key, seen + KeysOf(key, b), rest);
    }
  }

  /** When every reference lies in a file of its batch, and no file lies in two batches, streaming changes nothing. */
  lemma {:induction false} FilesKeepRefsApart(files: seq<set<string>>, batches: seq<seq<RawRef>>, seen: set<RefKey>,
                                              done: set<string>)
    requires |files| == |batches|
    requires forall i, r :: 0 <= i < |batches| && r in batches[i] ==> r.refFile in files[i]
    requires forall i, j :: 0 <= i < j < |files| ==> files[i] !! files[j]
    requires forall i :: 0 <= i < |files| ==> files[i] !! done
    requires forall k :: k in seen ==> k.3 in done
    ensures KeysApart(KeyOfRef(), seen, batches)
  {
    if batches != [] {
      KeyFiles(batches[0], files[0]);
      FilesKeepRefsApart(files[1..], batches[1..], seen + KeysOf(KeyOfRef(), batches[0]), done + files[0]);
    }
  }

  /** Streaming the merged batches' references yields the globally merged ones, exactly when no key crosses batches. */
  lemma StreamedRefsAreMerged(batches: seq<seq<RawRef>>)
    ensures Flatten(EachMerged(KeyOfRef(), batches)) == Dedup(KeyOfRef(), {}, Flatten(batches))
       <==> KeysApart(KeyOfRef(), {}, batches)
  {
    StreamedIsMerged(KeyOfRef(), {}, batches);
  }

  lemma {:induction false} KeyFiles(refs: seq<RawRef>, files: set<string>)
    requires forall r :: r in refs ==> r.refFile in files
    ensures forall k :: k in KeysOf(KeyOfRef(), refs) ==> k.3 in files
  {
    if refs != [] { KeyFiles(refs[1..], files); }
  }

  // ---- the merge itself ----------------------------------------------------

  /** One part of every bundle, in order. */
  function Collect<T>(part: Bundle -> seq<T>, bs: seq<Bundle>): seq<T> {
    if bs == [] then [] else Collect(part, bs[..|bs| - 1]) + part(bs[|bs| - 1])
  }

  function Nodes(): Bundle -> seq<Node> { (b: Bundle) => b.nodes }
  function Edges(): Bundle -> seq<Edge> { (b: Bundle) => b.edges }
  function Refs(): Bundle -> seq<RawRef> { (b: Bundle) => b.refs }

  function Merged(bs: seq<Bundle>): Bundle {
    Bundle(Dedup(NodeKey(), {}, Collect(Nodes(), bs)), Dedup(KeyOfEdge(), {}, Collect(Edges(), bs)),
           Dedup(KeyOfRef(), {}, Collect(Refs(), bs)))
  }

  lemma OneMore<T, K>(key: T -> K, xs: seq<T>, x: T)
    ensures KeysOf(key, xs + [x]) == KeysOf(key, xs) + {key(x)}
    ensures Dedup(key, {}, xs + [x]) == Dedup(key, {}, xs) + if key(x) in KeysOf(key, xs) then [] else [x]
  {
    KeptIffFirst(key, xs, x);
    KeysConcat(key, xs, [x]);
    assert [x][1..] == [];
  }

  /** Appending the unseen records of one more list. */
  method ExtendUnseen<T, K(==)>(key: T -> K, xs: seq<T>, seen: set<K>, kept: seq<T>, ghost before: seq<T>)
    returns (seen': set<K>, kept': seq<T>)
    requires seen == KeysOf(key, before) && kept == Dedup(key, {}, before)
    ensures seen' == KeysOf(key, before + xs) && kept' == Dedup(key, {}, before + xs)
  {
    seen', kept' := seen, kept;
    assert before + xs[..0] == before;
    for i := 0 to |xs|
      invariant seen' == KeysOf(key, before + xs[..i]) && kept' == Dedup(key, {}, before + xs[..i])
    {
      OneMore(key, before + xs[..i], xs[i]);
      assert before + xs[..i + 1] == (before + xs[..i]) + [xs[i]];
      if key(xs[i]) !in seen' {
        seen' := seen' + {key(xs[i])};
        kept' := kept' + [xs[i]];
      }
    }
    assert before + xs[..|xs|] == before + xs;
  }

  method MergeBundles(bundles: seq<Bundle>) returns (r: Bundle)
    ensures r == Merged(bundles)
  {
    var nodes: seq<Node>, edges: seq<Edge>, refs: seq<RawRef> := [], [], [];
    var seenNodes: set<string>, seenEdges: set<EdgeKey>, seenRefs: set<RefKey> := {}, {}, {};
    for i := 0 to |bundles|
      invariant seenNodes == KeysOf(NodeKey(), Collect(Nodes(), bundles[..i]))
        && nodes == Dedup(NodeKey(), {}, Collect(Nodes(), bundles[..i]))
      invariant seenEdges == KeysOf(KeyOfEdge(), Collect(Edges(), bundles[..i]))
        && edges == Dedup(KeyOfEdge(), {}, Collect(Edges(), bundles[..i]))
      invariant seenRefs == KeysOf(KeyOfRef(), Collect(Refs(), bundles[..i]))
        && refs == Dedup(KeyOfRef(), {}, Collect(Refs(), bundles[..i]))
    {
      assert bundles[..i + 1][..i] == bundles[..i];
      seenNodes, nodes := ExtendUnseen(NodeKey(), bundles[i].nodes, seenNodes, nodes, Collect(Nodes(), bundles[..i]));
      seenEdges, edges := ExtendUnseen(KeyOfEdge(), bundles[i].edges, seenEdges, edges, Collect(Edges(), bundles[..i]));
      seenRefs, refs := ExtendUnseen(KeyOfRef(), bundles[i].refs, seenRefs, refs, Collect(Refs(), bundles[..i]));
    }
    assert bundles[..|bundles|] == bundles;
    r := Bundle(nodes, edges, refs);
  }

  // ---- two levels against one -----------------------------------------------

  lemma {:induction false} CollectConcat<T>(part: Bundle -> seq<T>, a: seq<Bundle>, b: seq<Bundle>)
    ensures Collect(part, a + b) == Collect(part, a) + Collect(part, b)
  {
    if b == [] {
      assert a + b == a;
    } else {
      assert (a + b)[..|a + b| - 1] == a + b[..|b| - 1];
      CollectConcat(part, a, b[..|b| - 1]);
    }
  }

  /** One merged bundle per batch of file bundles. */
  function BatchBundles(batches: seq<seq<Bundle>>): seq<Bundle> {
    if batches == [] then [] else [Merged(batches[0])] + BatchBundles(batches[1..])
  }

  lemma {:induction false} TwoLevelPart<T, K>(part: Bundle -> seq<T>, key: T -> K, seen: set<K>,
                                              batches: seq<seq<Bundle>>)
    requires forall bs :: part(Merged(bs)) == Dedup(key, {}, Collect(part, bs))
    ensures Dedup(key, seen, Collect(part, BatchBundles(batches))) == Dedup(key, seen, Collect(part, Flatten(batches)))
    decreases batches
  {
    if batches != [] {
      var b, rest := batches[0], batches[1..];
      var raw, merged := Collect(part, b), part(Merged(b));
      CollectConcat(part, [Merged(b)], BatchBundles(rest));
      assert [Merged(b)][..0] == [];
      assert Collect(part, [Merged(b)]) == merged;
      CollectConcat(part, b, Flatten(rest));
      DedupConcat(key, seen, merged, Collect(part, BatchBundles(rest)));
      DedupConcat(key, seen, raw, Collect(part, Flatten(rest)));
      DedupTwice(key, {}, seen, raw);
      DedupKeys(key, {}, raw);
      assert KeysOf(key, raw) - {} == KeysOf(key, raw);
      TwoLevelPart(part, key, seen + KeysOf(key, raw), rest);
    }
  }

  /** Merging every batch and then the batches gives the nodes, edges and references of one merge over all files. */
  lemma TwoLevelMerge(batches: seq<seq<Bundle>>)
    ensures Merged(BatchBundles(batches)) == Merged(Flatten(batches))
  {
    TwoLevelPart(Nodes(), NodeKey(), {}, batches);
    TwoLevelPart(Edges(), KeyOfEdge(), {}, batches);
    TwoLevelPart(Refs(), KeyOfRef(), {}, batches);
  }

  // ---- late producers --------------------------------------------------------

  /** Nodes appended after the merge are filtered by id against everything known. */
  method ExtendUnique(allNodes: seq<Node>, knownIds: set<string>, newNodes: seq<Node>)
    returns (all: seq<Node>, known: set<string>, accepted: seq<Node>)
    ensures accepted == Dedup(NodeKey(), knownIds, newNodes)
    ensures all == allNodes + accepted && known == knownIds + KeysOf(NodeKey(), newNodes)
  {
    all, known, accepted := allNodes, knownIds, [];
    assert newNodes[..0] == [];
    for i := 0 to |newNodes|
      invariant accepted == Dedup(NodeKey(), knownIds, newNodes[..i])
      invariant all == allNodes + accepted && known == knownIds + KeysOf(NodeKey(), newNodes[..i])
    {
      var n := newNodes[i];
      assert newNodes[..i + 1] == newNodes[..i] + [n];
      DedupConcat(NodeKey(), knownIds, newNodes[..i], [n]);
      KeysConcat(NodeKey(), newNodes[..i], [n]);
      assert [n][1..] == [];
      if n.id !in known {
        known := known + {n.id};
        all := all + [n];
        accepted := accepted + [n];
      }
    }
    assert newNodes[..|newNodes|] == newNodes;
  }

  lemma {:induction false} KeysAreIds(nodes: seq<Node>)
    ensures KeysOf(NodeKey(), nodes) == IdsOf(nodes)
  {
    if nodes != [] {
      KeysAreIds(nodes[1..]);
      IdsConcat([nodes[0]], nodes[1..]);
      assert [nodes[0]] + nodes[1..] == nodes;
    }
  }
}
