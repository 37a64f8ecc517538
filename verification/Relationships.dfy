/** Stored relationships: an upsert merges by type and endpoints, then overwrites the properties it carries. */
module Relationships {
  import opened GraphModel

  datatype Value = Text(text: string) | Number(number: int)
  type Props = map<string, Value>
  type Key = (string, string, string)
  type Rels = map<Key, Props>

  /** An edge on its way to the store. */
  datatype Row = Row(edge: Edge, origin: string) {
    function Key(): Key { (edge.etype, edge.src, edge.dst) }
  }

  predicate Empty(v: Value) { v == Text("") || v == Number(0) }

  /** Empty values are dropped, so an upsert never erases a property. */
  function Clean(p: Props): Props { map k | k in p && !Empty(p[k]) :: p[k] }

  function PropsOf(r: Row): Props {
    Clean(map["confidence" := Text(r.edge.confidence), "origin" := Text(r.origin),
              "evidence_line" := Number(r.edge.evidenceLine), "strategy" := Text(r.edge.strategy)])
  }

  function Get(rels: Rels, k: Key): Props { if k in rels then rels[k] else map[] }

  predicate Linked(nodes: set<string>, k: Key) { k.1 in nodes && k.2 in nodes }

  /** A row whose endpoints are not both stored matches nothing. */
  function Upsert(nodes: set<string>, rels: Rels, r: Row): Rels {
    if Linked(nodes, r.Key()) then rels[r.Key() := Get(rels, r.Key()) + PropsOf(r)] else rels
  }

  /** One upsert after another. */
  function UpsertAll(nodes: set<string>, rels: Rels, rows: seq<Row>): Rels
    decreases |rows|
  {
    if rows == [] then rels else UpsertAll(nodes, Upsert(nodes, rels, rows[0]), rows[1..])
  }

  lemma {:induction false} UpsertConcat(nodes: set<string>, rels: Rels, a: seq<Row>, b: seq<Row>)
    ensures UpsertAll(nodes, rels, a + b) == UpsertAll(nodes, UpsertAll(nodes, rels, a), b)
    decreases |a|
  {
    if a == [] {
      assert a + b == b;
    } else {
      assert (a + b)[1..] == a[1..] + b;
      UpsertConcat(nodes, Upsert(nodes, rels, a[0]), a[1..], b);
    }
  }

  function HasKey(k: Key): Row -> bool { (r: Row) => r.Key() == k }

  function Overlay(p: Props, rows: seq<Row>): Props
    decreases |rows|
  {
    if rows == [] then p else Overlay(p + PropsOf(rows[0]), rows[1..])
  }

  /** What a relationship ends up with is decided by the rows of its own key. */
  lemma {:induction false} AtKey(nodes: set<string>, rels: Rels, rows: seq<Row>, k: Key)
    ensures var own := Select(rows, HasKey(k)); var after := UpsertAll(nodes, rels, rows);
      && (k in after <==> k in rels || (Linked(nodes, k) && own != []))
      && Get(after, k) == if Linked(nodes, k) then Overlay(Get(rels, k), own) else Get(rels, k)
    decreases |rows|
  {
    if rows != [] {
      var next := Upsert(nodes, rels, rows[0]);
      AtKey(nodes, next, rows[1..], k);
      var own := Select(rows, HasKey(k));
      if rows[0].Key() == k {
        assert own == [rows[0]] + Select(rows[1..], HasKey(k));
        assert own[1..] == Select(rows[1..], HasKey(k));
        if Linked(nodes, k) {
          assert Get(next, k) == Get(rels, k) + PropsOf(rows[0]);
        }
      } else {
        assert own == Select(rows[1..], HasKey(k));
        assert Get(next, k) == Get(rels, k);
      }
    }
  }

  ghost function RowKeys(rows: seq<Row>): set<Key> { set r | r in rows :: r.Key() }

  lemma UpsertKeys(nodes: set<string>, rels: Rels, rows: seq<Row>, k: Key)
    ensures k in UpsertAll(nodes, rels, rows) <==> k in rels || (Linked(nodes, k) && k in RowKeys(rows))
  {
    var own := Select(rows, HasKey(k));
    AtKey(nodes, rels, rows, k);
    if own != [] { assert own[0] in own; }
    if k in RowKeys(rows) {
      var r :| r in rows && r.Key() == k;
      assert r in own;
    }
  }

  /** Rows may be regrouped freely as long as those of one key keep their order. */
  lemma Regroup(nodes: set<string>, rels: Rels, a: seq<Row>, b: seq<Row>)
    requires forall k :: Select(a, HasKey(k)) == Select(b, HasKey(k))
    ensures UpsertAll(nodes, rels, a) == UpsertAll(nodes, rels, b)
  {
    var x, y := UpsertAll(nodes, rels, a), UpsertAll(nodes, rels, b);
    forall k ensures (k in x <==> k in y) && Get(x, k) == Get(y, k) {
      AtKey(nodes, rels, a, k);
      AtKey(nodes, rels, b, k);
    }
    SameRels(x, y);
  }

  /** The effect of a batch on an empty store. */
  function Effect(nodes: set<string>, rows: seq<Row>): Rels { UpsertAll(nodes, map[], rows) }

  /** `b` written over `a`. */
  function Over(a: Rels, b: Rels): Rels { map k | k in a.Keys + b.Keys :: Get(a, k) + Get(b, k) }

  lemma PlusAssoc(p: Props, q: Props, s: Props)
    ensures (p + q) + s == p + (q + s)
  {
  }

  lemma OverEmpty(a: Rels)
    ensures Over(a, map[]) == a
  {
    forall k | k in a ensures Over(a, map[])[k] == a[k] {
      assert Get(a, k) + map[] == a[k];
    }
  }

  lemma OverAt(a: Rels, b: Rels, k: Key)
    ensures (k in Over(a, b) <==> k in a || k in b) && Get(Over(a, b), k) == Get(a, k) + Get(b, k)
  {
    if k !in a && k !in b { assert Get(a, k) + Get(b, k) == map[]; }
  }

  lemma SameRels(x: Rels, y: Rels)
    requires forall k :: (k in x <==> k in y) && Get(x, k) == Get(y, k)
    ensures x == y
  {
    forall k | k in x ensures k in y && x[k] == y[k] {
      assert Get(x, k) == Get(y, k);
    }
  }

  lemma UpsertIsOver(nodes: set<string>, rels: Rels, r: Row)
    ensures Upsert(nodes, rels, r) == Over(rels, Upsert(nodes, map[], r))
  {
    var one := Upsert(nodes, map[], r);
    forall k ensures (k in Upsert(nodes, rels, r) <==> k in Over(rels, one))
      && Get(Upsert(nodes, rels, r), k) == Get(Over(rels, one), k) {
      OverAt(rels, one, k);
      assert Get(rels, k) + map[] == Get(rels, k);
      assert map[] + PropsOf(r) == PropsOf(r);
    }
    SameRels(Upsert(nodes, rels, r), Over(rels, one));
  }

  lemma {:induction false} BatchIsOver(nodes: set<string>, rels: Rels, rows: seq<Row>)
    ensures UpsertAll(nodes, rels, rows) == Over(rels, Effect(nodes, rows))
    decreases |rows|
  {
    if rows == [] {
      OverEmpty(rels);
    } else {
      var r := rows[0];
      BatchIsOver(nodes, Upsert(nodes, rels, r), rows[1..]);
      BatchIsOver(nodes, Upsert(nodes, map[], r), rows[1..]);
      OverAssoc(rels, Upsert(nodes, map[], r), Effect(nodes, rows[1..]));
      UpsertIsOver(nodes, rels, r);
    }
  }

  lemma OverAssoc(a: Rels, b: Rels, c: Rels)
    ensures Over(Over(a, b), c) == Over(a, Over(b, c))
  {
    var x, y := Over(Over(a, b), c), Over(a, Over(b, c));
    forall k ensures (k in x <==> k in y) && Get(x, k) == Get(y, k) {
      OverAt(a, b, k);
      OverAt(b, c, k);
      OverAt(Over(a, b), c, k);
      OverAt(a, Over(b, c), k);
      PlusAssoc(Get(a, k), Get(b, k), Get(c, k));
    }
    SameRels(x, y);
  }

  // ---- in terms of the edges' fields ---------------------------------------------------

  ghost predicate Between(r: Row, k: Key) { r.edge.etype == k.0 && r.edge.src == k.1 && r.edge.dst == k.2 }

  /** What a row says of a property; a field at its empty value says nothing. */
  ghost predicate Says(r: Row, p: string, v: Value) {
    && v != Text("") && v != Number(0)
    && ( || (p == "confidence" && v == Text(r.edge.confidence))
         || (p == "origin" && v == Text(r.origin))
         || (p == "evidence_line" && v == Number(r.edge.evidenceLine))
         || (p == "strategy" && v == Text(r.edge.strategy)))
  }

  /** No row about the relationship, from the `i`-th on, says anything of the property. */
  ghost predicate SilentFrom(rows: seq<Row>, i: nat, k: Key, p: string) {
    forall j, u :: i <= j < |rows| && Between(rows[j], k) ==> !Says(rows[j], p, u)
  }

  ghost predicate LastSays(rows: seq<Row>, k: Key, p: string, v: Value) {
    exists i: nat :: i < |rows| && Between(rows[i], k) && Says(rows[i], p, v) && SilentFrom(rows, i + 1, k, p)
  }

  ghost predicate Holds(rels: Rels, k: Key, p: string, v: Value) { k in rels && p in rels[k] && rels[k][p] == v }

  lemma PropsSay(r: Row, p: string, v: Value)
    ensures (p in PropsOf(r) && PropsOf(r)[p] == v) <==> Says(r, p, v)
  {
  }

  lemma UpsertSays(nodes: set<string>, rels: Rels, r: Row, k: Key, p: string, v: Value)
    ensures Holds(Upsert(nodes, rels, r), k, p, v) <==>
      if k.1 in nodes && k.2 in nodes && Between(r, k) && exists u :: Says(r, p, u) then Says(r, p, v)
      else Holds(rels, k, p, v)
  {
    PropsSay(r, p, v);
    if p in PropsOf(r) { PropsSay(r, p, PropsOf(r)[p]); }
    if u :| Says(r, p, u) { PropsSay(r, p, u); }
  }

  lemma SilentNext(rows: seq<Row>, r: Row, i: nat, k: Key, p: string)
    requires i <= |rows|
    ensures SilentFrom(rows + [r], i, k, p) <==>
      SilentFrom(rows, i, k, p) && (Between(r, k) ==> forall u :: !Says(r, p, u))
  {
    var all := rows + [r];
    if SilentFrom(all, i, k, p) {
      forall j, u | i <= j < |rows| && Between(rows[j], k) ensures !Says(rows[j], p, u) { assert all[j] == rows[j]; }
      assert all[|rows|] == r;
    }
  }

  lemma LastSaysNext(rows: seq<Row>, r: Row, k: Key, p: string, v: Value)
    ensures LastSays(rows + [r], k, p, v) <==>
      if Between(r, k) && exists u :: Says(r, p, u) then Says(r, p, v) else LastSays(rows, k, p, v)
  {
    var all := rows + [r];
    if i: nat :| i < |all| && Between(all[i], k) && Says(all[i], p, v) && SilentFrom(all, i + 1, k, p) {
      if i < |rows| { SilentNext(rows, r, i + 1, k, p); }
    }
    if i: nat :| i < |rows| && Between(rows[i], k) && Says(rows[i], p, v) && SilentFrom(rows, i + 1, k, p) {
      SilentNext(rows, r, i + 1, k, p);
      assert all[i] == rows[i];
    }
    if Between(r, k) && Says(r, p, v) { assert all[|rows|] == r && SilentFrom(all, |rows| + 1, k, p); }
  }

  /** After the upserts a relationship between stored nodes has of each property what the last edge to say anything of
      it says, and what it had before if none does; nothing else changes. */
  lemma {:induction false} LastSaidStays(nodes: set<string>, rels: Rels, rows: seq<Row>, k: Key, p: string, v: Value)
    ensures Holds(UpsertAll(nodes, rels, rows), k, p, v) <==>
      || (Holds(rels, k, p, v) && (k.1 !in nodes || k.2 !in nodes || SilentFrom(rows, 0, k, p)))
      || (k.1 in nodes && k.2 in nodes && LastSays(rows, k, p, v))
    decreases |rows|
  {
    if rows != [] {
      var rest, last := rows[..|rows| - 1], rows[|rows| - 1];
      assert rows == rest + [last] && [last][1..] == [];
      LastSaidStays(nodes, rels, rest, k, p, v);
      UpsertConcat(nodes, rels, rest, [last]);
      UpsertSays(nodes, UpsertAll(nodes, rels, rest), last, k, p, v);
      SilentNext(rest, last, 0, k, p);
      LastSaysNext(rest, last, k, p, v);
    }
  }

  /** A relationship is there once some edge between its stored endpoints was written. */
  lemma StoredIff(nodes: set<string>, rels: Rels, rows: seq<Row>, k: Key)
    ensures k in UpsertAll(nodes, rels, rows) <==>
      k in rels || (k.1 in nodes && k.2 in nodes && exists r :: r in rows && Between(r, k))
  {
    UpsertKeys(nodes, rels, rows, k);
    if r :| r in rows && Between(r, k) { assert r.Key() in RowKeys(rows); }
  }
}
