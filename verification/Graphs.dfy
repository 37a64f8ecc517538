/** Walks in a finite directed graph, given as the set of its arcs. */
module Graphs {

  type Arcs = set<(string, string)>

  /** A walk of exactly `n` arcs leads from `a` to `b`. */
  ghost predicate Steps(r: Arcs, a: string, b: string, n: nat)
    decreases n
  {
    if n == 0 then a == b else exists m :: (a, m) in r && Steps(r, m, b, n - 1)
  }

  /** `b` is at most `n` arcs away from `a`. */
  ghost predicate Within(r: Arcs, a: string, b: string, n: nat) {
    exists k: nat :: k <= n && Steps(r, a, b, k)
  }

  /** Reachable over zero or more arcs. */
  ghost predicate Reaches(r: Arcs, a: string, b: string) {
    exists n: nat :: Steps(r, a, b, n)
  }

  /** Reachable over one or more arcs. */
  ghost predicate ReachesAbove(r: Arcs, a: string, b: string) {
    exists n: nat :: 0 < n && Steps(r, a, b, n)
  }

  /** The arcs of an adjacency map. */
  ghost function ArcsOf(g: map<string, seq<string>>): Arcs {
    set a, b | a in g && b in g[a] :: (a, b)
  }

  function Successors(g: map<string, seq<string>>, v: string): seq<string> {
    if v in g then g[v] else []
  }

  lemma {:induction false} StepsConcat(r: Arcs, a: string, m: string, b: string, i: nat, j: nat)
    requires Steps(r, a, m, i) && Steps(r, m, b, j)
    ensures Steps(r, a, b, i + j)
    decreases i
  {
    if i != 0 {
      var x :| (a, x) in r && Steps(r, x, m, i - 1);
      StepsConcat(r, x, m, b, i - 1, j);
    }
  }

  /** A walk extended by one arc at its end. */
  lemma StepsSnoc(r: Arcs, a: string, m: string, b: string, i: nat)
    requires Steps(r, a, m, i) && (m, b) in r
    ensures Steps(r, a, b, i + 1)
  {
    assert Steps(r, b, b, 0);
    assert Steps(r, m, b, 1);
    StepsConcat(r, a, m, b, i, 1);
  }

  /** The last arc of a nonempty walk. */
  lemma {:induction false} StepsLast(r: Arcs, a: string, b: string, n: nat) returns (m: string)
    requires 0 < n && Steps(r, a, b, n)
    ensures Steps(r, a, m, n - 1) && (m, b) in r
    decreases n
  {
    var x :| (a, x) in r && Steps(r, x, b, n - 1);
    if n == 1 {
      m := a;
    } else {
      m := StepsLast(r, x, b, n - 1);
    }
  }

  /** A set that holds the successors of `a` and is closed under arcs holds everything above `a`. */
  lemma {:induction false} ClosedHoldsAbove(r: Arcs, a: string, s: set<string>, b: string, n: nat)
    requires forall m :: (a, m) in r ==> m in s
    requires forall u, w :: u in s && (u, w) in r ==> w in s
    requires 0 < n && Steps(r, a, b, n)
    ensures b in s
    decreases n
  {
    var m := StepsLast(r, a, b, n);
    if n > 1 {
      ClosedHoldsAbove(r, a, s, m, n - 1);
    }
  }

  ghost function Reverse(r: Arcs): Arcs {
    set e | e in r :: (e.1, e.0)
  }

  lemma {:induction false} StepsReverse(r: Arcs, a: string, b: string, n: nat)
    ensures Steps(Reverse(r), b, a, n) <==> Steps(r, a, b, n)
    decreases n
  {
    if n != 0 {
      if Steps(r, a, b, n) {
        var x :| (a, x) in r && Steps(r, x, b, n - 1);
        StepsReverse(r, x, b, n - 1);
        assert (x, a) == ((a, x).1, (a, x).0);
        StepsSnoc(Reverse(r), b, x, a, n - 1);
      }
      if Steps(Reverse(r), b, a, n) {
        var y :| (b, y) in Reverse(r) && Steps(Reverse(r), y, a, n - 1);
        StepsReverse(r, a, y, n - 1);
        StepsSnoc(r, a, y, b, n - 1);
      }
    }
  }

  /** More arcs lose no walk. */
  lemma {:induction false} StepsMonotone(r: Arcs, more: Arcs, a: string, b: string, n: nat)
    requires r <= more && Steps(r, a, b, n)
    ensures Steps(more, a, b, n)
    decreases n
  {
    if n != 0 {
      var m :| (a, m) in r && Steps(r, m, b, n - 1);
      StepsMonotone(r, more, m, b, n - 1);
    }
  }

  /** One more arc above what is above `a`. */
  lemma AboveNext(r: Arcs, a: string, b: string, c: string)
    requires ReachesAbove(r, a, b) && (b, c) in r
    ensures ReachesAbove(r, a, c)
  {
    var n: nat :| 0 < n && Steps(r, a, b, n);
    StepsSnoc(r, a, b, c, n);
  }

  lemma AboveFirst(r: Arcs, a: string, b: string)
    requires (a, b) in r
    ensures ReachesAbove(r, a, b)
  {
    assert Steps(r, b, b, 0);
    assert Steps(r, a, b, 1);
  }

  /** The successors of `a` are in `s`, and `s` is closed under arcs: then all above `a` is in `s`. */
  lemma ClosedIsAbove(r: Arcs, a: string, s: set<string>)
    requires forall m :: (a, m) in r ==> m in s
    requires forall u, w :: u in s && (u, w) in r ==> w in s
    ensures forall b :: ReachesAbove(r, a, b) ==> b in s
  {
    forall b | ReachesAbove(r, a, b) ensures b in s {
      var n: nat :| 0 < n && Steps(r, a, b, n);
      ClosedHoldsAbove(r, a, s, b, n);
    }
  }
}
