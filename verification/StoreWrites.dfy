/** Writing edges grouped by type and sliced into batches. */
module StoreWrites {
  import opened GraphModel
  import opened Relationships
  import opened BatchScheduler
  import opened LandingOrder

  datatype Outcome = Written(rows: nat) | UnknownType(etype: string)

  function NotDropped(dropped: set<string>): Row -> bool { (r: Row) => r.edge.etype !in dropped }

  function OfType(t: string): Row -> bool { (r: Row) => r.edge.etype == t }

  /** The rows that survive the drop filter. */
  function Live(rows: seq<Row>, dropped: set<string>): seq<Row> { Select(rows, NotDropped(dropped)) }

  /** Type buckets in order of first use. */
  datatype Buckets = Buckets(order: seq<string>, rows: map<string, seq<Row>>)

  ghost predicate Holds(b: Buckets, live: seq<Row>) {
    && (forall i, j :: 0 <= i < j < |b.order| ==> b.order[i] != b.order[j])
    && (forall t :: t in b.order <==> t in b.rows)
    && (forall t :: t in b.rows ==> b.rows[t] == Select(live, OfType(t)))
    && (forall r :: r in live ==> r.edge.etype in b.rows)
  }

  function Add(b: Buckets, r: Row): Buckets {
    var t := r.edge.etype;
    if t in b.rows then b.(rows := b.rows[t := b.rows[t] + [r]]) else Buckets(b.order + [t], b.rows[t := [r]])
  }

  lemma AddHolds(b: Buckets, live: seq<Row>, r: Row)
    requires Holds(b, live)
    ensures Holds(Add(b, r), live + [r])
  {
    var t := r.edge.etype;
    if t !in b.rows {
      SelectNone(live, OfType(t));
    }
    forall u ensures Select(live + [r], OfType(u)) == Select(live, OfType(u)) + if u == t then [r] else [] {
      OneMoreOfType(live, r, u);
    }
  }

  lemma OneMoreOfType(live: seq<Row>, r: Row, t: string)
    ensures Select(live + [r], OfType(t)) == Select(live, OfType(t)) + if r.edge.etype == t then [r] else []
  {
    SelectConcat(live, [r], OfType(t));
  }

  /** Every live row has a type the schema knows. */
  ghost predicate AllKnown(rows: seq<Row>, known: set<string>, dropped: set<string>) {
    forall r :: r in Live(rows, dropped) ==> r.edge.etype in known
  }

  lemma LiveNext(rows: seq<Row>, i: nat, dropped: set<string>)
    requires i < |rows|
    ensures rows[i].edge.etype in dropped ==> Live(rows[..i + 1], dropped) == Live(rows[..i], dropped)
    ensures rows[i].edge.etype !in dropped ==> Live(rows[..i + 1], dropped) == Live(rows[..i], dropped) + [rows[i]]
  {
    assert rows[..i + 1] == rows[..i] + [rows[i]];
    SelectConcat(rows[..i], [rows[i]], NotDropped(dropped));
  }

  lemma RowFiled(b: Buckets, rows: seq<Row>, i: nat, known: set<string>, dropped: set<string>)
    requires i < |rows| && Holds(b, Live(rows[..i], dropped)) && AllKnown(rows[..i], known, dropped)
    requires rows[i].edge.etype in dropped || rows[i].edge.etype in known
    ensures Holds(if rows[i].edge.etype in dropped then b else Add(b, rows[i]), Live(rows[..i + 1], dropped))
    ensures AllKnown(rows[..i + 1], known, dropped)
  {
    LiveNext(rows, i, dropped);
    if rows[i].edge.etype !in dropped {
      AddHolds(b, Live(rows[..i], dropped), rows[i]);
    }
  }

  lemma UnknownSpoils(rows: seq<Row>, i: nat, known: set<string>, dropped: set<string>)
    requires i < |rows| && rows[i].edge.etype !in dropped && rows[i].edge.etype !in known
    ensures !AllKnown(rows, known, dropped)
  {
    assert NotDropped(dropped)(rows[i]) && rows[i] in Live(rows, dropped);
  }

  /** The bucketing loop: dropped types are skipped, an unknown type stops the write before anything is sent. */
  method FillBuckets(rows: seq<Row>, known: set<string>, dropped: set<string>)
    returns (b: Buckets, unknown: Option<string>)
    ensures unknown.None? ==> Holds(b, Live(rows, dropped))
    ensures unknown.None? <==> AllKnown(rows, known, dropped)
  {
    b, unknown := Buckets([], map[]), None;
    for i := 0 to |rows|
      invariant Holds(b, Live(rows[..i], dropped)) && AllKnown(rows[..i], known, dropped)
    {
      var r := rows[i];
      if r.edge.etype !in dropped {
        if r.edge.etype !in known {
          UnknownSpoils(rows, i, known, dropped);
          return b, Some(r.edge.etype);
        }
        RowFiled(b, rows, i, known, dropped);
        b := Add(b, r);
      } else {
        RowFiled(b, rows, i, known, dropped);
      }
    }
    assert rows[..|rows|] == rows;
  }

  /** All buckets in order. */
  function Grouped(b: Buckets, order: seq<string>): seq<Row>
    requires forall t :: t in order ==> t in b.rows
  {
    if order == [] then [] else b.rows[order[0]] + Grouped(b, order[1..])
  }

  /** Grouping by type keeps the rows of one relationship together and in order. */
  lemma {:induction false} GroupedAtKey(b: Buckets, order: seq<string>, live: seq<Row>, k: Key)
    requires Holds(b, live) && forall t :: t in order ==> t in b.rows
    requires forall i, j :: 0 <= i < j < |order| ==> order[i] != order[j]
    ensures Select(Grouped(b, order), HasKey(k)) == if k.0 in order then Select(live, HasKey(k)) else []
  {
    if order != [] {
      var t, rest := order[0], order[1..];
      GroupedAtKey(b, rest, live, k);
      SelectConcat(b.rows[t], Grouped(b, rest), HasKey(k));
      if t == k.0 {
        SelectTwice(live, OfType(t), HasKey(k), HasKey(k));
        assert k.0 !in rest;
      } else {
        SelectNone(b.rows[t], HasKey(k));
      }
    }
  }

  lemma GroupedIsSame(nodes: set<string>, rels: Rels, b: Buckets, live: seq<Row>)
    requires Holds(b, live)
    ensures UpsertAll(nodes, rels, Grouped(b, b.order)) == UpsertAll(nodes, rels, live)
    ensures |Grouped(b, b.order)| == |live|
  {
    forall k ensures Select(Grouped(b, b.order), HasKey(k)) == Select(live, HasKey(k)) {
      GroupedAtKey(b, b.order, live, k);
      if k.0 !in b.order { SelectNone(live, HasKey(k)); }
    }
    Regroup(nodes, rels, Grouped(b, b.order), live);
    GroupedSize(b, b.order, live);
    assert Select(live, TypeIn(b.order)) == live by { SelectEvery(live, TypeIn(b.order)); }
  }

  function TypeIn(order: seq<string>): Row -> bool { (r: Row) => r.edge.etype in order }

  lemma {:induction false} SelectEvery(rows: seq<Row>, p: Row -> bool)
    requires forall r :: r in rows ==> p(r)
    ensures Select(rows, p) == rows
  {
    if rows != [] { SelectEvery(rows[1..], p); }
  }

  lemma {:induction false} GroupedSize(b: Buckets, order: seq<string>, live: seq<Row>)
    requires Holds(b, live) && forall t :: t in order ==> t in b.rows
    requires forall i, j :: 0 <= i < j < |order| ==> order[i] != order[j]
    ensures |Grouped(b, order)| == |Select(live, TypeIn(order))|
  {
    if order == [] {
      SelectNone(live, TypeIn(order));
    } else {
      GroupedSize(b, order[1..], live);
      CountSplit(live, order[0], order[1..]);
      assert [order[0]] + order[1..] == order;
    }
  }

  lemma {:induction false} CountSplit(rows: seq<Row>, t: string, rest: seq<string>)
    requires t !in rest
    ensures |Select(rows, TypeIn([t] + rest))| == |Select(rows, OfType(t))| + |Select(rows, TypeIn(rest))|
  {
    if rows != [] {
      CountSplit(rows[1..], t, rest);
      assert TypeIn([t] + rest)(rows[0]) <==> rows[0].edge.etype == t || rows[0].edge.etype in rest;
    }
  }

  /** One bucket in slices of `batch` rows. */
  function Slices(rows: seq<Row>, batch: nat): (slices: Batches)
    requires 0 < batch
    ensures Flatten(slices) == rows
    decreases |rows|
  {
    if rows == [] then []
    else
      var n := if batch < |rows| then batch else |rows|;
      assert rows == rows[..n] + rows[n..];
      [rows[..n]] + Slices(rows[n..], batch)
  }

  /** Every batch is one type and no longer than the batch size. */
  predicate Uniform(slice: seq<Row>, t: string, batch: nat) {
    0 < |slice| <= batch && forall r :: r in slice ==> r.edge.etype == t
  }

  lemma {:induction false} SlicesUniform(rows: seq<Row>, t: string, batch: nat)
    requires 0 < batch && forall r :: r in rows ==> r.edge.etype == t
    ensures forall s :: s in Slices(rows, batch) ==> Uniform(s, t, batch)
    decreases |rows|
  {
    if rows != [] {
      SlicesUniform(rows[if batch < |rows| then batch else |rows|..], t, batch);
    }
  }

  /** The lazy batch generator, type by type. */
  method SliceAll(b: Buckets, ghost live: seq<Row>, batch: nat) returns (batches: Batches)
    requires 0 < batch && Holds(b, live)
    ensures Flatten(batches) == Grouped(b, b.order)
    ensures forall s :: s in batches ==> exists t :: Uniform(s, t, batch)
  {
    batches := [];
    for i := 0 to |b.order|
      invariant Flatten(batches) == Grouped(b, b.order[..i])
      invariant forall s :: s in batches ==> exists t :: Uniform(s, t, batch)
    {
      var t := b.order[i];
      assert b.order[..i + 1] == b.order[..i] + [t];
      GroupedSnoc(b, b.order[..i], t);
      var slices := Slices(b.rows[t], batch);
      SlicesUniform(b.rows[t], t, batch);
      FlattenConcat(batches, slices);
      batches := batches + slices;
    }
    assert b.order[..|b.order|] == b.order;
  }

  lemma {:induction false} GroupedSnoc(b: Buckets, order: seq<string>, t: string)
    requires (forall u :: u in order ==> u in b.rows) && t in b.rows
    ensures Grouped(b, order + [t]) == Grouped(b, order) + b.rows[t]
  {
    if order == [] {
      assert Grouped(b, [t][1..]) == [];
    } else {
      assert (order + [t])[1..] == order[1..] + [t];
      GroupedSnoc(b, order[1..], t);
    }
  }

  /** With one writer, the store ends up as if the live edges had been upserted one by one, whatever the batch size. */
  method WriteEdges(db: Database, rows: seq<Row>, known: set<string>, dropped: set<string>, batch: nat)
    returns (o: Outcome)
    requires 0 < batch
    modifies db`rels
    ensures o.Written? ==>
      db.rels == UpsertAll(db.nodes, old(db.rels), Live(rows, dropped)) && o.rows == |Live(rows, dropped)|
    ensures o.UnknownType? ==> db.rels == old(db.rels)
    ensures o.Written? <==> AllKnown(rows, known, dropped)
  {
    var b, unknown := FillBuckets(rows, known, dropped);
    if unknown.Some? {
      return UnknownType(unknown.value);
    }
    var batches := SliceAll(b, Live(rows, dropped), batch);
    GroupedIsSame(db.nodes, db.rels, b, Live(rows, dropped));
    var n := db.WriteSequentially(batches);
    o := Written(n);
  }

  /** With several writers the relationships are the same, and so are their properties unless two batches conflict. */
  method WriteEdgesInParallel(db: Database, rows: seq<Row>, known: set<string>, dropped: set<string>, batch: nat,
                              workers: nat)
    returns (o: Outcome, ghost batches: Batches)
    requires 0 < batch && 0 < workers
    modifies db`rels
    ensures o.Written? ==> (
      var one := UpsertAll(db.nodes, old(db.rels), Live(rows, dropped));
      && db.rels.Keys == one.Keys && o.rows == |Live(rows, dropped)|
      && (ConflictFree(db.nodes, batches) ==> db.rels == one))
    ensures o.UnknownType? ==> db.rels == old(db.rels)
    ensures o.Written? <==> AllKnown(rows, known, dropped)
  {
    batches := [];
    var b, unknown := FillBuckets(rows, known, dropped);
    if unknown.Some? {
      return UnknownType(unknown.value), [];
    }
    var slices := SliceAll(b, Live(rows, dropped), batch);
    batches := slices;
    GroupedIsSame(db.nodes, db.rels, b, Live(rows, dropped));
    ghost var before := db.rels;
    var n, log := db.WriteInParallel(slices, workers);
    AsInOrder(db.nodes, before, batches, log, workers);
    o := Written(n);
  }

  ghost function InOrder(n: nat): (log: seq<nat>)
    ensures |log| == n && forall p :: 0 <= p < n ==> log[p] == p
  {
    seq(n, p => p)
  }

  lemma {:induction false} InOrderIsSequential(nodes: set<string>, rels: Rels, batches: Batches, n: nat)
    requires n <= |batches|
    ensures Landing(nodes, rels, batches, InOrder(n)) == UpsertAll(nodes, rels, Flatten(batches[..n]))
  {
    if n > 0 {
      InOrderIsSequential(nodes, rels, batches, n - 1);
      assert InOrder(n)[..n - 1] == InOrder(n - 1);
      assert batches[..n] == batches[..n - 1] + [batches[n - 1]];
      FlattenConcat(batches[..n - 1], [batches[n - 1]]);
      assert Flatten([batches[n - 1]]) == batches[n - 1];
      UpsertConcat(nodes, rels, Flatten(batches[..n - 1]), batches[n - 1]);
    }
  }

  lemma AsInOrder(nodes: set<string>, rels: Rels, batches: Batches, log: seq<nat>, workers: nat)
    requires IsSchedule(log, |batches|, workers)
    ensures var one := UpsertAll(nodes, rels, Flatten(batches)); var got := Landing(nodes, rels, batches, log);
      got.Keys == one.Keys && (ConflictFree(nodes, batches) ==> got == one)
  {
    var n := |batches|;
    InOrderIsSequential(nodes, rels, batches, n);
    assert batches[..n] == batches;
    ScheduleIsAll(log, n, workers);
    assert Reordered(log, InOrder(n)) by {
      forall i | i in log ensures i in InOrder(n) { assert InOrder(n)[i] == i; }
    }
    SameKeys(nodes, rels, batches, log, InOrder(n));
    if ConflictFree(nodes, batches) {
      SameStore(nodes, rels, batches, log, InOrder(n));
    }
  }
}
