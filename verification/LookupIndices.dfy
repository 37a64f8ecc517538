/** The resolver's lookup indices, and the linear filters over the node list that they stand for. */
module LookupIndices {
  import opened GraphModel

  /** One entry of a scalar-or-list index: a lone node, or a list once a second one arrives. */
  datatype Slot = One(node: Node) | Many(nodes: seq<Node>)

  type Buckets = map<string, seq<Node>>
  type Key = (string, Option<string>)
  type Slots = map<Key, Slot>

  function IndexMember(idx: Slots, key: Key, node: Node): Slots {
    if key !in idx then idx[key := One(node)]
    else match idx[key]
      case One(first) => idx[key := Many([first, node])]
      case Many(nodes) => idx[key := Many(nodes + [node])]
  }

  function Members(idx: Slots, key: Key): seq<Node> {
    if key !in idx then [] else match idx[key]
      case One(n) => [n]
      case Many(ns) => ns
  }

  function AddToBucket(idx: Buckets, name: string, node: Node): Buckets {
    idx[name := Bucket(idx, name) + [node]]
  }

  function Bucket(idx: Buckets, name: string): seq<Node> {
    if name in idx then idx[name] else []
  }

  // ---- what each index is keyed on ------------------------------------

  predicate IsCallable(n: Node) { n.tag == "Class" || n.tag == "Function" }

  function NamedLike(tags: set<string>, name: string): Node -> bool {
    (n: Node) => n.tag in tags && n.name == name
  }

  function ParentOf(parents: map<string, string>, id: string): Option<string> {
    if id in parents then Some(parents[id]) else None
  }

  function InClass(parents: map<string, string>, byId: map<string, Node>, id: string): Option<string> {
    if id in parents && parents[id] != "" && parents[id] in byId && byId[parents[id]].tag == "Class"
    then Some(parents[id]) else None
  }

  datatype Scopes = Scopes(parents: map<string, string>, byId: map<string, Node>)

  datatype SlotKind = ByNameParent | ByNameFile | MethodsOfClass | FieldsOfClass | FieldsOfFile

  /** The key under which a node is filed in an index, if it is filed there at all. */
  function KeyIn(kind: SlotKind, sc: Scopes, n: Node): Option<Key> {
    match kind
    case ByNameParent => if IsCallable(n) then Some((n.name, ParentOf(sc.parents, n.id))) else None
    case ByNameFile => if IsCallable(n) && n.file != "" then Some((n.name, Some(n.file))) else None
    case MethodsOfClass =>
      var cls := InClass(sc.parents, sc.byId, n.id);
      if n.tag == "Function" && n.kind == "method" && cls.Some? then Some((n.name, cls)) else None
    case FieldsOfClass =>
      var cls := InClass(sc.parents, sc.byId, n.id);
      if n.tag == "Field" && cls.Some? then Some((n.name, cls)) else None
    case FieldsOfFile =>
      if n.tag == "Field" && n.scope == "module" && n.file != "" then Some((n.name, Some(n.file))) else None
  }

  function FiledUnder(kind: SlotKind, sc: Scopes, key: Key): Node -> bool {
    (n: Node) => KeyIn(kind, sc, n) == Some(key)
  }

  /** `idx` answers every probe with the linear filter of `ns`. */
  ghost predicate Indexes(idx: Slots, kind: SlotKind, sc: Scopes, ns: seq<Node>) {
    forall key :: Members(idx, key) == Select(ns, FiledUnder(kind, sc, key))
  }

  ghost predicate BucketsBy(idx: Buckets, tags: set<string>, ns: seq<Node>) {
    && (forall name :: Bucket(idx, name) == Select(ns, NamedLike(tags, name)))
    && (forall name :: name in idx ==> idx[name] != [])
  }

  function FileSlot(idx: Slots, kind: SlotKind, sc: Scopes, n: Node): Slots {
    match KeyIn(kind, sc, n)
    case Some(key) => IndexMember(idx, key, n)
    case None => idx
  }

  lemma IndexesNext(idx: Slots, kind: SlotKind, sc: Scopes, ns: seq<Node>, n: Node)
    requires Indexes(idx, kind, sc, ns)
    ensures Indexes(FileSlot(idx, kind, sc, n), kind, sc, ns + [n])
  {
    var next := FileSlot(idx, kind, sc, n);
    forall key ensures Members(next, key) == Select(ns + [n], FiledUnder(kind, sc, key)) {
      OneMoreFiled(kind, sc, ns, n, key);
      assert Members(idx, key) == Select(ns, FiledUnder(kind, sc, key));
    }
  }

  lemma OneMoreFiled(kind: SlotKind, sc: Scopes, ns: seq<Node>, n: Node, key: Key)
    ensures Select(ns + [n], FiledUnder(kind, sc, key))
         == Select(ns, FiledUnder(kind, sc, key)) + if KeyIn(kind, sc, n) == Some(key) then [n] else []
  {
    SelectConcat(ns, [n], FiledUnder(kind, sc, key));
  }

  lemma BucketsNext(idx: Buckets, tags: set<string>, ns: seq<Node>, n: Node)
    requires BucketsBy(idx, tags, ns)
    ensures BucketsBy(if n.tag in tags then AddToBucket(idx, n.name, n) else idx, tags, ns + [n])
  {
    var next := if n.tag in tags then AddToBucket(idx, n.name, n) else idx;
    forall name ensures Bucket(next, name) == Select(ns + [n], NamedLike(tags, name)) {
      SelectConcat(ns, [n], NamedLike(tags, name));
      assert Bucket(idx, name) == Select(ns, NamedLike(tags, name));
    }
  }

  const CALLABLES: set<string> := {"Class", "Function"}

  datatype Indices = Indices(
    scopes: Scopes,
    byName: Buckets, funcsByName: Buckets, classesByName: Buckets, filesByBasename: Buckets,
    byNameParent: Slots, byNameFile: Slots, methodsOfClass: Slots, fieldsOfClass: Slots, fieldsOfFile: Slots)

  ghost predicate Built(ix: Indices, nodes: seq<Node>) {
    && ix.scopes.byId == ById(nodes)
    && BucketsBy(ix.byName, CALLABLES, nodes)
    && BucketsBy(ix.funcsByName, {"Function"}, nodes)
    && BucketsBy(ix.classesByName, {"Class"}, nodes)
    && BucketsBy(ix.filesByBasename, {"File"}, nodes)
    && Indexes(ix.byNameParent, ByNameParent, ix.scopes, nodes)
    && Indexes(ix.byNameFile, ByNameFile, ix.scopes, nodes)
    && Indexes(ix.methodsOfClass, MethodsOfClass, ix.scopes, nodes)
    && Indexes(ix.fieldsOfClass, FieldsOfClass, ix.scopes, nodes)
    && Indexes(ix.fieldsOfFile, FieldsOfFile, ix.scopes, nodes)
  }

  /** The id map: a later node wins. */
  function ById(nodes: seq<Node>): map<string, Node> {
    if nodes == [] then map[] else ById(nodes[..|nodes| - 1])[nodes[|nodes| - 1].id := nodes[|nodes| - 1]]
  }

  /** The containment map: the last CONTAINS edge into a node wins. */
  function Containers(edges: seq<Edge>): map<string, string> {
    if edges == [] then map[]
    else
      var e, before := edges[|edges| - 1], Containers(edges[..|edges| - 1]);
      if e.etype == "CONTAINS" then before[e.dst := e.src] else before
  }

  method BuildIndices(nodes: seq<Node>, edges: seq<Edge>) returns (ix: Indices)
    ensures Built(ix, nodes) && ix.scopes.parents == Containers(edges)
  {
    var byId: map<string, Node> := map[];
    for i := 0 to |nodes|
      invariant byId == ById(nodes[..i])
    {
      assert nodes[..i + 1][..i] == nodes[..i];
      byId := byId[nodes[i].id := nodes[i]];
    }
    assert nodes[..|nodes|] == nodes;
    var byName, funcs, classes, files := FillBuckets(nodes);
    var parents: map<string, string> := map[];
    for i := 0 to |edges|
      invariant parents == Containers(edges[..i])
    {
      assert edges[..i + 1][..i] == edges[..i];
      if edges[i].etype == "CONTAINS" {
        parents := parents[edges[i].dst := edges[i].src];
      }
    }
    assert edges[..|edges|] == edges;
    var sc := Scopes(parents, byId);
    var np, nf, mc, fc, ff := FillSlots(nodes, sc);
    ix := Indices(sc, byName, funcs, classes, files, np, nf, mc, fc, ff);
  }

  method FillBuckets(nodes: seq<Node>) returns (byName: Buckets, funcs: Buckets, classes: Buckets, files: Buckets)
    ensures BucketsBy(byName, CALLABLES, nodes) && BucketsBy(funcs, {"Function"}, nodes)
    ensures BucketsBy(classes, {"Class"}, nodes) && BucketsBy(files, {"File"}, nodes)
  {
    byName, funcs, classes, files := map[], map[], map[], map[];
    for i := 0 to |nodes|
      invariant BucketsBy(byName, CALLABLES, nodes[..i]) && BucketsBy(funcs, {"Function"}, nodes[..i])
      invariant BucketsBy(classes, {"Class"}, nodes[..i]) && BucketsBy(files, {"File"}, nodes[..i])
    {
      var n := nodes[i];
      assert nodes[..i + 1] == nodes[..i] + [n];
      BucketsNext(byName, CALLABLES, nodes[..i], n);
      BucketsNext(funcs, {"Function"}, nodes[..i], n);
      BucketsNext(classes, {"Class"}, nodes[..i], n);
      BucketsNext(files, {"File"}, nodes[..i], n);
      if n.tag == "Class" || n.tag == "Function" {
        byName := AddToBucket(byName, n.name, n);
        if n.tag == "Function" {
          funcs := AddToBucket(funcs, n.name, n);
        }
      }
      if n.tag == "Class" {
        classes := AddToBucket(classes, n.name, n);
      } else if n.tag == "File" {
        files := AddToBucket(files, n.name, n);
      }
    }
    assert nodes[..|nodes|] == nodes;
  }

  method FillSlots(nodes: seq<Node>, sc: Scopes)
    returns (np: Slots, nf: Slots, mc: Slots, fc: Slots, ff: Slots)
    ensures Indexes(np, ByNameParent, sc, nodes) && Indexes(nf, ByNameFile, sc, nodes)
    ensures Indexes(mc, MethodsOfClass, sc, nodes) && Indexes(fc, FieldsOfClass, sc, nodes)
    ensures Indexes(ff, FieldsOfFile, sc, nodes)
  {
    np, nf, mc, fc, ff := map[], map[], map[], map[], map[];
    for i := 0 to |nodes|
      invariant Indexes(np, ByNameParent, sc, nodes[..i]) && Indexes(nf, ByNameFile, sc, nodes[..i])
      invariant Indexes(mc, MethodsOfClass, sc, nodes[..i]) && Indexes(fc, FieldsOfClass, sc, nodes[..i])
      invariant Indexes(ff, FieldsOfFile, sc, nodes[..i])
    {
      var n := nodes[i];
      ghost var np', nf', mc', fc', ff' := FileSlot(np, ByNameParent, sc, n), FileSlot(nf, ByNameFile, sc, n),
        FileSlot(mc, MethodsOfClass, sc, n), FileSlot(fc, FieldsOfClass, sc, n), FileSlot(ff, FieldsOfFile, sc, n);
      assert nodes[..i + 1] == nodes[..i] + [n];
      IndexesNext(np, ByNameParent, sc, nodes[..i], n);
      IndexesNext(nf, ByNameFile, sc, nodes[..i], n);
      IndexesNext(mc, MethodsOfClass, sc, nodes[..i], n);
      IndexesNext(fc, FieldsOfClass, sc, nodes[..i], n);
      IndexesNext(ff, FieldsOfFile, sc, nodes[..i], n);
      if n.tag == "Field" && n.scope == "module" && n.file != "" {
        ff := IndexMember(ff, (n.name, Some(n.file)), n);
      }
      if n.tag == "Class" || n.tag == "Function" {
        np := IndexMember(np, (n.name, ParentOf(sc.parents, n.id)), n);
        if n.file != "" {
          nf := IndexMember(nf, (n.name, Some(n.file)), n);
        }
      }
      var cls := InClass(sc.parents, sc.byId, n.id);
      if cls.Some? {
        if n.tag == "Function" && n.kind == "method" {
          mc := IndexMember(mc, (n.name, cls), n);
        } else if n.tag == "Field" {
          fc := IndexMember(fc, (n.name, cls), n);
        }
      }
      assert np == np' && nf == nf' && mc == mc' && fc == fc' && ff == ff';
    }
    assert nodes[..|nodes|] == nodes;
  }

  // ---- the probes against the filters they replaced --------------------

  /** The candidates a bare call considers: same-named functions, or same-named classes when there are none. */
  function PoolByScan(nodes: seq<Node>, name: string): seq<Node> {
    var fns := Select(nodes, NamedLike({"Function"}, name));
    if fns != [] then fns else Select(nodes, NamedLike(CALLABLES, name))
  }

  function Pool(ix: Indices, name: string): seq<Node> {
    if name in ix.funcsByName then ix.funcsByName[name] else Bucket(ix.byName, name)
  }

  function IsFunction(): Node -> bool { (n: Node) => n.tag == "Function" }

  function ContainedIn(sc: Scopes, parent: string): Node -> bool {
    (n: Node) => ParentOf(sc.parents, n.id) == Some(parent)
  }

  function InFile(file: string): Node -> bool { (n: Node) => n.file == file }

  /** A probe of a composite index, with the label filter the pool had applied up front. */
  function Probe(ix: Indices, idx: Slots, name: string, at: string): seq<Node> {
    var hits := Members(idx, (name, Some(at)));
    if name in ix.funcsByName then Select(hits, IsFunction()) else hits
  }

  lemma PoolIsScan(ix: Indices, nodes: seq<Node>, name: string)
    requires Built(ix, nodes)
    ensures Pool(ix, name) == PoolByScan(nodes, name)
  {
    assert Bucket(ix.funcsByName, name) == Select(nodes, NamedLike({"Function"}, name));
    assert Bucket(ix.byName, name) == Select(nodes, NamedLike(CALLABLES, name));
  }

  lemma ScopeProbeIsFilter(ix: Indices, nodes: seq<Node>, name: string, parent: string)
    requires Built(ix, nodes)
    ensures Probe(ix, ix.byNameParent, name, parent)
         == Select(PoolByScan(nodes, name), ContainedIn(ix.scopes, parent))
  {
    ProbeIsFilter(ix, nodes, ByNameParent, ix.byNameParent, name, parent, ContainedIn(ix.scopes, parent));
  }

  lemma FileProbeIsFilter(ix: Indices, nodes: seq<Node>, name: string, file: string)
    requires Built(ix, nodes) && file != ""
    ensures Probe(ix, ix.byNameFile, name, file) == Select(PoolByScan(nodes, name), InFile(file))
  {
    ProbeIsFilter(ix, nodes, ByNameFile, ix.byNameFile, name, file, InFile(file));
  }

  lemma ProbeIsFilter(ix: Indices, nodes: seq<Node>, kind: SlotKind, idx: Slots, name: string, at: string,
                      here: Node -> bool)
    requires Built(ix, nodes) && Indexes(idx, kind, ix.scopes, nodes)
    requires forall n :: KeyIn(kind, ix.scopes, n) == Some((name, Some(at))) <==>
      IsCallable(n) && n.name == name && here(n)
    ensures Probe(ix, idx, name, at) == Select(PoolByScan(nodes, name), here)
  {
    var filed := FiledUnder(kind, ix.scopes, (name, Some(at)));
    var fns := Select(nodes, NamedLike({"Function"}, name));
    assert Bucket(ix.funcsByName, name) == fns;
    assert Members(idx, (name, Some(at))) == Select(nodes, filed);
    FilterOrder(nodes, name, filed, here);
  }

  /** Filing first and filtering by label, or filtering the pool: the same nodes in the same order. */
  lemma FilterOrder(nodes: seq<Node>, name: string, filed: Node -> bool, here: Node -> bool)
    requires forall n :: filed(n) <==> IsCallable(n) && n.name == name && here(n)
    ensures Select(Select(nodes, filed), IsFunction()) == Select(Select(nodes, NamedLike({"Function"}, name)), here)
    ensures Select(Select(nodes, NamedLike(CALLABLES, name)), here) == Select(nodes, filed)
  {
    var both: Node -> bool := (n: Node) => n.tag == "Function" && n.name == name && here(n);
    SelectTwice(nodes, filed, IsFunction(), both);
    SelectTwice(nodes, NamedLike({"Function"}, name), here, both);
    SelectTwice(nodes, NamedLike(CALLABLES, name), here, filed);
  }
}
