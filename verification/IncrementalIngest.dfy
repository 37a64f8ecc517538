/** Re-ingesting over an existing graph: what patching leaves, compared with a fresh build. */
module IncrementalIngest {
  import opened Relationships

  /** A node row: its id and its file; synthesized nodes may have no file. */
  datatype NodeRow = NodeRow(id: string, file: string)

  /** Content hashes by file. */
  type Shas = map<string, string>

  function ChangedFiles(prev: Shas, cur: Shas): set<string> {
    set f | f in cur && !(f in prev && prev[f] == cur[f])
  }

  function DeletedFiles(prev: Shas, cur: Shas): set<string> { prev.Keys - cur.Keys }

  function RowIds(rows: seq<NodeRow>): set<string> { set r | r in rows :: r.id }

  /** Nodes of the namespace, by id. */
  type Nodes = map<string, string>

  function Merged(nodes: Nodes, rows: seq<NodeRow>): Nodes
    decreases |rows|
  {
    if rows == [] then nodes else Merged(nodes[rows[0].id := rows[0].file], rows[1..])
  }

  lemma {:induction false} MergedIds(nodes: Nodes, rows: seq<NodeRow>)
    ensures Merged(nodes, rows).Keys == nodes.Keys + RowIds(rows)
    decreases |rows|
  {
    if rows != [] {
      MergedIds(nodes[rows[0].id := rows[0].file], rows[1..]);
      assert rows == [rows[0]] + rows[1..];
      assert RowIds(rows) == {rows[0].id} + RowIds(rows[1..]);
    }
  }

  /** The nodes that a deletion of files leaves. */
  function Survivors(nodes: Nodes, files: set<string>): Nodes {
    map n | n in nodes && nodes[n] !in files :: nodes[n]
  }

  /** Detaching deletion: a relationship goes with either of its endpoints. */
  function Attached(rels: Rels, nodes: set<string>): Rels {
    map k | k in rels && Linked(nodes, k) :: rels[k]
  }

  /** The graph one build of the namespace leaves. */
  datatype Graph = Graph(nodes: Nodes, rels: Rels)

  function Fresh(nodeRows: seq<NodeRow>, edgeRows: seq<Row>): Graph {
    Written(Graph(map[], map[]), nodeRows, edgeRows)
  }

  function Written(g: Graph, nodeRows: seq<NodeRow>, edgeRows: seq<Row>): Graph {
    var nodes := Merged(g.nodes, nodeRows);
    Graph(nodes, UpsertAll(nodes.Keys, g.rels, edgeRows))
  }

  function Without(g: Graph, files: set<string>): Graph {
    var left := Survivors(g.nodes, files);
    Graph(left, Attached(g.rels, left.Keys))
  }

  /** Every relationship has both endpoints. */
  ghost predicate Closed(g: Graph) { forall k :: k in g.rels ==> Linked(g.nodes.Keys, k) }

  lemma WrittenIsClosed(g: Graph, nodeRows: seq<NodeRow>, edgeRows: seq<Row>)
    requires Closed(g)
    ensures Closed(Written(g, nodeRows, edgeRows))
  {
    var nodes := Merged(g.nodes, nodeRows);
    MergedIds(g.nodes, nodeRows);
    forall k | k in UpsertAll(nodes.Keys, g.rels, edgeRows) ensures Linked(nodes.Keys, k) {
      UpsertKeys(nodes.Keys, g.rels, edgeRows, k);
    }
  }

  class CodeGraph {
    var graph: Graph

    ghost predicate Valid() reads this { Closed(graph) }

    constructor ()
      ensures Valid() && graph == Graph(map[], map[])
    {
      graph := Graph(map[], map[]);
    }

    method DeleteFiles(files: set<string>)
      requires Valid()
      modifies this
      ensures Valid() && graph == Without(old(graph), files)
    {
      if files == {} {
        assert Without(graph, files) == graph;
        return;
      }
      graph := Without(graph, files);
    }

    /** Patch, wipe, or write on top, then every node and every edge of the build. */
    method Ingest(nodeRows: seq<NodeRow>, edgeRows: seq<Row>, incremental: bool, wipe: bool, changed: set<string>,
                  deleted: set<string>)
      requires Valid()
      modifies this
      ensures Valid()
      ensures incremental ==> graph == Written(Without(old(graph), changed + deleted), nodeRows, edgeRows)
      ensures !incremental && wipe ==> graph == Fresh(nodeRows, edgeRows)
      ensures !incremental && !wipe ==> graph == Written(old(graph), nodeRows, edgeRows)
    {
      if incremental {
        DeleteFiles(changed + deleted);
      } else if wipe {
        graph := Graph(map[], map[]);
      }
      WrittenIsClosed(graph, nodeRows, edgeRows);
      graph := Written(graph, nodeRows, edgeRows);
    }

    /**
      * Re-ingesting a ready namespace, whatever it holds and however it came about: the change set comes from the two
      * manifests. What a fresh build would not have is what the deletion does not reach and the build does not produce.
      */
    method Reingest(prev: Shas, build: Build)
      requires Valid()
      modifies this
      ensures Valid() && graph == Patched(old(graph), prev, build)
      ensures var built := Fresh(build.nodes, build.edges);
        var renewed := Renewed(old(graph), Removed(prev, build.shas), build.nodes);
        && (graph.nodes == built.nodes <==> renewed)
        && (renewed ==> (graph.rels.Keys == built.rels.Keys <==>
              forall k :: k in Without(old(graph), Removed(prev, build.shas)).rels ==> k in RowKeys(build.edges)))
    {
      PatchIsFreshIff(graph, build.nodes, build.edges, Removed(prev, build.shas));
      PatchEdgesIff(graph, build.nodes, build.edges, Removed(prev, build.shas));
      Ingest(build.nodes, build.edges, true, false, ChangedFiles(prev, build.shas), DeletedFiles(prev, build.shas));
    }
  }

  // ---- what a patch leaves behind ---------------------------------------------

  /** One build: the manifest it is made from and the rows it writes. */
  datatype Build = Build(shas: Shas, nodes: seq<NodeRow>, edges: seq<Row>)

  function Removed(prev: Shas, cur: Shas): set<string> { ChangedFiles(prev, cur) + DeletedFiles(prev, cur) }

  function Patched(g: Graph, prev: Shas, b: Build): Graph {
    Written(Without(g, Removed(prev, b.shas)), b.nodes, b.edges)
  }

  /** Every stored node that the deletion does not reach is produced again. */
  ghost predicate Renewed(g: Graph, removed: set<string>, rows: seq<NodeRow>) {
    forall n :: n in g.nodes && g.nodes[n] !in removed ==> n in RowIds(rows)
  }

  /** The file of a written node is that of its last row, whatever was there before. */
  lemma {:induction false} MergedFiles(a: Nodes, b: Nodes, rows: seq<NodeRow>, id: string)
    requires id in RowIds(rows) || (id in a && id in b && a[id] == b[id])
    ensures id in Merged(a, rows) && id in Merged(b, rows) && Merged(a, rows)[id] == Merged(b, rows)[id]
    decreases |rows|
  {
    if rows != [] {
      assert rows == [rows[0]] + rows[1..];
      MergedFiles(a[rows[0].id := rows[0].file], b[rows[0].id := rows[0].file], rows[1..], id);
    }
  }

  lemma {:induction false} MergedFrom(nodes: Nodes, rows: seq<NodeRow>, id: string)
    requires id in Merged(nodes, rows)
    ensures NodeRow(id, Merged(nodes, rows)[id]) in rows || (id in nodes && nodes[id] == Merged(nodes, rows)[id])
    decreases |rows|
  {
    if rows != [] {
      MergedFrom(nodes[rows[0].id := rows[0].file], rows[1..], id);
    }
  }

  /** A patched graph has the nodes of a fresh build exactly when every stored node that the deletion does not reach
      is produced again; else it has more. */
  lemma PatchIsFreshIff(before: Graph, newNodes: seq<NodeRow>, newEdges: seq<Row>, removed: set<string>)
    ensures var patched, built := Written(Without(before, removed), newNodes, newEdges), Fresh(newNodes, newEdges);
      && built.nodes.Keys <= patched.nodes.Keys
      && (forall n :: n in built.nodes ==> patched.nodes[n] == built.nodes[n])
      && (patched.nodes == built.nodes <==> Renewed(before, removed, newNodes))
  {
    var left := Survivors(before.nodes, removed);
    MergedIds(map[], newNodes);
    MergedIds(left, newNodes);
    forall n | n in RowIds(newNodes) ensures Merged(left, newNodes)[n] == Merged(map[], newNodes)[n] {
      MergedFiles(left, map[], newNodes, n);
    }
    if Merged(left, newNodes) == Merged(map[], newNodes) {
      forall n | n in before.nodes && before.nodes[n] !in removed ensures n in RowIds(newNodes) {
        assert n in Merged(left, newNodes);
      }
    }
  }

  /** A patched graph has a fresh build's relationships exactly when no relationship between survivors went out of
      use. */
  lemma PatchEdgesIff(before: Graph, newNodes: seq<NodeRow>, newEdges: seq<Row>, removed: set<string>)
    ensures var base := Without(before, removed);
      var patched, after := Written(base, newNodes, newEdges), Fresh(newNodes, newEdges);
      patched.nodes.Keys == after.nodes.Keys ==>
        (patched.rels.Keys == after.rels.Keys <==> forall k :: k in base.rels ==> k in RowKeys(newEdges))
  {
    var base := Without(before, removed);
    var patched, after := Written(base, newNodes, newEdges), Fresh(newNodes, newEdges);
    if patched.nodes.Keys == after.nodes.Keys {
      MergedIds(base.nodes, newNodes);
      forall k ensures k in patched.rels <==> k in base.rels || k in after.rels {
        UpsertKeys(patched.nodes.Keys, base.rels, newEdges, k);
        UpsertKeys(after.nodes.Keys, map[], newEdges, k);
      }
      forall k ensures k in after.rels <==> Linked(after.nodes.Keys, k) && k in RowKeys(newEdges) {
        UpsertKeys(after.nodes.Keys, map[], newEdges, k);
      }
      forall k | k in base.rels ensures Linked(after.nodes.Keys, k) {
        assert k.1 in base.nodes.Keys && k.2 in base.nodes.Keys;
      }
    }
  }

  /** A node with a file is what the content of that file yields by itself. */
  ghost predicate FromSource(n: string, file: string, shas: Shas, extract: (string, string) -> set<string>) {
    file in shas && n in extract(file, shas[file])
  }

  /** A build holds at least what its source files yield. */
  ghost predicate Covers(rows: seq<NodeRow>, shas: Shas, extract: (string, string) -> set<string>) {
    forall f, n :: f in shas && n in extract(f, shas[f]) ==> n in RowIds(rows)
  }

  /** A file outside the change set has the content of the last ingest. */
  lemma UnchangedFiles(prev: Shas, cur: Shas, f: string)
    ensures f !in Removed(prev, cur) <==> (f in prev && f in cur && prev[f] == cur[f]) || (f !in prev && f !in cur)
  {
  }

  /** Only nodes that no source file yields by itself can linger: those without a file, and those that the class files
      of an unchanged source file contributed. */
  lemma SynthesizedLinger(g: Graph, prev: Shas, b: Build, extract: (string, string) -> set<string>)
    requires Covers(b.nodes, b.shas, extract)
    ensures Patched(g, prev, b).nodes == Fresh(b.nodes, b.edges).nodes <==>
      forall n :: n in g.nodes && g.nodes[n] !in Removed(prev, b.shas) && !FromSource(n, g.nodes[n], prev, extract) ==>
        n in RowIds(b.nodes)
  {
    PatchIsFreshIff(g, b.nodes, b.edges, Removed(prev, b.shas));
    forall n | n in g.nodes && g.nodes[n] !in Removed(prev, b.shas) && FromSource(n, g.nodes[n], prev, extract)
      ensures n in RowIds(b.nodes)
    {
      UnchangedFiles(prev, b.shas, g.nodes[n]);
    }
  }

  // ---- builds without class files, over any history ------------------------------

  /** Without class files, every row with a file is what that file's content yields. */
  ghost predicate SourceOnly(b: Build, extract: (string, string) -> set<string>) {
    && "" !in b.shas && Covers(b.nodes, b.shas, extract)
    && forall r :: r in b.nodes && r.file != "" ==> FromSource(r.id, r.file, b.shas, extract)
  }

  /** A first build and the patches after it. */
  function History(builds: seq<Build>): Graph
    requires builds != []
  {
    var last := builds[|builds| - 1];
    if |builds| == 1 then Fresh(last.nodes, last.edges)
    else Patched(History(builds[..|builds| - 1]), builds[|builds| - 2].shas, last)
  }

  ghost predicate AllSourced(nodes: Nodes, shas: Shas, extract: (string, string) -> set<string>) {
    forall n :: n in nodes && nodes[n] != "" ==> FromSource(n, nodes[n], shas, extract)
  }

  lemma PatchKeepsSourced(left: Nodes, b: Build, extract: (string, string) -> set<string>)
    requires SourceOnly(b, extract) && AllSourced(left, b.shas, extract)
    ensures AllSourced(Merged(left, b.nodes), b.shas, extract)
  {
    var nodes := Merged(left, b.nodes);
    forall n | n in nodes && nodes[n] != "" ensures FromSource(n, nodes[n], b.shas, extract) {
      MergedFrom(left, b.nodes, n);
    }
  }

  lemma {:induction false} HistoryIsSourced(builds: seq<Build>, extract: (string, string) -> set<string>)
    requires builds != [] && forall b :: b in builds ==> SourceOnly(b, extract)
    ensures AllSourced(History(builds).nodes, builds[|builds| - 1].shas, extract)
  {
    var last := builds[|builds| - 1];
    if |builds| == 1 {
      PatchKeepsSourced(map[], last, extract);
    } else {
      var rest, prev := builds[..|builds| - 1], builds[|builds| - 2].shas;
      HistoryIsSourced(rest, extract);
      var left := Survivors(History(rest).nodes, Removed(prev, last.shas));
      forall n | n in left && left[n] != "" ensures FromSource(n, left[n], last.shas, extract) {
        UnchangedFiles(prev, last.shas, left[n]);
      }
      PatchKeepsSourced(left, last, extract);
    }
  }

  lemma PatchIsFreshIffFileless(g: Graph, prev: Shas, b: Build, extract: (string, string) -> set<string>)
    requires AllSourced(g.nodes, prev, extract) && "" !in prev && SourceOnly(b, extract)
    ensures Patched(g, prev, b).nodes == Fresh(b.nodes, b.edges).nodes <==>
      forall n :: n in g.nodes && g.nodes[n] == "" ==> n in RowIds(b.nodes)
  {
    SynthesizedLinger(g, prev, b, extract);
    forall n | n in g.nodes
      ensures g.nodes[n] !in Removed(prev, b.shas) && !FromSource(n, g.nodes[n], prev, extract) <==> g.nodes[n] == ""
    {
    }
  }

  /** However often a namespace was patched, without class files it has the nodes of a fresh build exactly when every
      node without a file that it held before is produced again. */
  lemma HistoryIsFreshIff(builds: seq<Build>, extract: (string, string) -> set<string>)
    requires |builds| > 1 && forall b :: b in builds ==> SourceOnly(b, extract)
    ensures var last, before := builds[|builds| - 1], History(builds[..|builds| - 1]).nodes;
      History(builds).nodes == Fresh(last.nodes, last.edges).nodes <==>
        forall n :: n in before && before[n] == "" ==> n in RowIds(last.nodes)
  {
    var rest := builds[..|builds| - 1];
    assert builds[|builds| - 1] in builds && rest[|rest| - 1] in builds;
    HistoryIsSourced(rest, extract);
    PatchIsFreshIffFileless(History(rest), rest[|rest| - 1].shas, builds[|builds| - 1], extract);
  }

  // ---- nodes that linger ------------------------------------------------------------

  /** An external node without a file: the caller is edited so that it calls it no more, and a patch keeps the node. */
  lemma StaleNodeLingers() returns (g: Graph, prev: Shas, b: Build)
    ensures g == Fresh([NodeRow("f", "A.java"), NodeRow("ext", "")], [])
    ensures prev == map["A.java" := "1"] && b == Build(map["A.java" := "2"], [NodeRow("f", "A.java")], [])
    ensures Patched(g, prev, b).nodes != Fresh(b.nodes, []).nodes
  {
    var rows := [NodeRow("f", "A.java"), NodeRow("ext", "")];
    g, prev := Fresh(rows, []), map["A.java" := "1"];
    b := Build(map["A.java" := "2"], [NodeRow("f", "A.java")], []);
    Lingers(rows, prev, b, rows[1]);
  }

  /** A lambda's node, which has the file of its class: the class files are gone by the next run, in which another file
      is edited. */
  lemma LambdaNodeLingers() returns (g: Graph, prev: Shas, b: Build)
    ensures g == Fresh([NodeRow("a", "A.java"), NodeRow("a#lambda$0", "A.java"), NodeRow("b", "B.java")], [])
    ensures prev == map["A.java" := "1", "B.java" := "1"]
    ensures b == Build(prev["B.java" := "2"], [NodeRow("a", "A.java"), NodeRow("b", "B.java")], [])
    ensures Patched(g, prev, b).nodes != Fresh(b.nodes, []).nodes
    ensures forall n :: n in g.nodes ==> g.nodes[n] != ""
  {
    var rows := [NodeRow("a", "A.java"), NodeRow("a#lambda$0", "A.java"), NodeRow("b", "B.java")];
    g, prev := Fresh(rows, []), map["A.java" := "1", "B.java" := "1"];
    b := Build(prev["B.java" := "2"], [NodeRow("a", "A.java"), NodeRow("b", "B.java")], []);
    forall n | n in g.nodes ensures g.nodes[n] != "" { MergedFrom(map[], rows, n); }
    Lingers(rows, prev, b, rows[1]);
  }

  lemma Lingers(rows: seq<NodeRow>, prev: Shas, b: Build, r: NodeRow)
    requires r in rows && r.file !in Removed(prev, b.shas) && r.id !in RowIds(b.nodes)
    requires forall q :: q in rows && q.id == r.id ==> q == r
    ensures Patched(Fresh(rows, []), prev, b).nodes != Fresh(b.nodes, b.edges).nodes
  {
    MergedIds(map[], rows);
    assert r.id in RowIds(rows);
    MergedFrom(map[], rows, r.id);
    PatchIsFreshIff(Fresh(rows, []), b.nodes, b.edges, Removed(prev, b.shas));
  }
}
