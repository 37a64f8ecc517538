/** The nearest-first supertype chain of a class, as the resolver's ancestor pre-pass computes it. */
module Ancestors {
  import opened Graphs

  type Hierarchy = map<string, seq<string>>

  /** Every class the hierarchy names as somebody's supertype. */
  function Supertypes(g: Hierarchy): set<string> {
    set a, b | a in g && b in g[a] :: b
  }

  predicate Queueable(g: Hierarchy, queue: seq<string>) {
    forall v :: v in queue ==> v in Supertypes(g)
  }

  /** Breadth-first order, on one first-in first-out queue. */
  function Bfs(g: Hierarchy, seen: set<string>, queue: seq<string>): seq<string>
    requires Queueable(g, queue)
    decreases |Supertypes(g) - seen|, |queue|
  {
    if queue == [] then []
    else if queue[0] in seen then Bfs(g, seen, queue[1..])
    else
      FewerUnseen(g, seen, queue[0]);
      [queue[0]] + Bfs(g, seen + {queue[0]}, queue[1..] + Successors(g, queue[0]))
  }

  /** One class taken off the queue. */
  lemma BfsTake(g: Hierarchy, seen: set<string>, queue: seq<string>)
    requires queue != [] && Queueable(g, queue)
    ensures Queueable(g, queue[1..]) && Queueable(g, queue[1..] + Successors(g, queue[0]))
    ensures if queue[0] in seen then Bfs(g, seen, queue) == Bfs(g, seen, queue[1..])
      else Bfs(g, seen, queue) == [queue[0]] + Bfs(g, seen + {queue[0]}, queue[1..] + Successors(g, queue[0]))
           && |Supertypes(g) - (seen + {queue[0]})| < |Supertypes(g) - seen|
  {
    if queue[0] !in seen {
      FewerUnseen(g, seen, queue[0]);
    }
  }

  function AncestorChain(g: Hierarchy, c: string): seq<string> {
    Bfs(g, {c}, Successors(g, c))
  }

  lemma FewerUnseen(g: Hierarchy, seen: set<string>, v: string)
    requires v in Supertypes(g) && v !in seen
    ensures |Supertypes(g) - (seen + {v})| < |Supertypes(g) - seen|
  {
    assert Supertypes(g) - seen == (Supertypes(g) - (seen + {v})) + {v};
  }

  ghost predicate Distinct(s: seq<string>) {
    forall i, j :: 0 <= i < j < |s| ==> s[i] != s[j]
  }

  /** No class stands behind one that is farther from `c`: every ball around `c` is a prefix of the list. */
  ghost predicate NearestFirst(r: Arcs, c: string, s: seq<string>) {
    forall i, j, n: nat :: 0 <= i < j < |s| && Within(r, c, s[j], n) ==> Within(r, c, s[i], n)
  }

  /** What the queue looks like while classes `d` arcs away are taken from `a` and their successors pile up in `b`. */
  ghost predicate Sweep(r: Arcs, c: string, seen: set<string>, a: seq<string>, b: seq<string>, d: nat) {
    && c in seen
    && (forall v {:trigger Within(r, c, v, d)} :: v in seen ==> Within(r, c, v, d))
    && (forall v, k: nat :: k < d && Steps(r, c, v, k) ==> v in seen)
    && (forall v :: v in a ==> Steps(r, c, v, d))
    && (forall v :: v in b ==> Steps(r, c, v, d + 1))
    && (forall v :: Steps(r, c, v, d) ==> v in seen || v in a)
    && (forall u, w :: u in seen && (u, w) in r ==> w in seen || w in a || w in b)
  }

  /** Taking the next class off the queue. */
  lemma SweepStep(g: Hierarchy, c: string, seen: set<string>, a: seq<string>, b: seq<string>, d: nat)
    requires a != [] && Sweep(ArcsOf(g), c, seen, a, b, d)
    ensures a[0] in seen ==> Sweep(ArcsOf(g), c, seen, a[1..], b, d)
    ensures Sweep(ArcsOf(g), c, seen + {a[0]}, a[1..], b + Successors(g, a[0]), d)
  {
    var r := ArcsOf(g);
    assert a == [a[0]] + a[1..];
    forall w | w in Successors(g, a[0])
      ensures Steps(r, c, w, d + 1)
    {
      StepsSnoc(r, c, a[0], w, d);
    }
  }

  /** When one distance is exhausted the next begins. */
  lemma SweepTurn(r: Arcs, c: string, seen: set<string>, b: seq<string>, d: nat)
    requires Sweep(r, c, seen, [], b, d)
    ensures Sweep(r, c, seen, b, [], d + 1)
  {
    forall v | v in seen ensures Within(r, c, v, d + 1) {
      WithinMore(r, c, v, d);
    }
    forall v | Steps(r, c, v, d + 1) ensures v in seen || v in b {
      NextSphere(r, c, seen, b, d, v);
    }
    forall v, k: nat | k < d + 1 && Steps(r, c, v, k) ensures v in seen {
      if k == d { assert v !in []; }
    }
  }

  lemma WithinMore(r: Arcs, c: string, v: string, d: nat)
    requires Within(r, c, v, d)
    ensures Within(r, c, v, d + 1)
  {
    var k: nat :| k <= d && Steps(r, c, v, k);
  }

  lemma NextSphere(r: Arcs, c: string, seen: set<string>, b: seq<string>, d: nat, v: string)
    requires Sweep(r, c, seen, [], b, d)
    requires Steps(r, c, v, d + 1)
    ensures v in seen || v in b
  {
    var m := StepsLast(r, c, v, d + 1);
  }

  ghost predicate InOrder(r: Arcs, c: string, seen: set<string>, out: seq<string>) {
    && Distinct(out)
    && (forall v :: v in out <==> v !in seen && Reaches(r, c, v))
    && NearestFirst(r, c, out)
  }

  lemma {:induction false} BfsFollowsDistance(g: Hierarchy, c: string, seen: set<string>, a: seq<string>,
                                              b: seq<string>, d: nat)
    requires Queueable(g, a + b)
    requires Sweep(ArcsOf(g), c, seen, a, b, d)
    ensures InOrder(ArcsOf(g), c, seen, Bfs(g, seen, a + b))
    decreases |Supertypes(g) - seen|, |a + b|, |b|, 1
  {
    if a != [] {
      BfsTakesHead(g, c, seen, a, b, d);
    } else if b == [] {
      NothingLeft(ArcsOf(g), c, seen, d);
    } else {
      SweepTurn(ArcsOf(g), c, seen, b, d);
      assert a + b == b == b + [];
      BfsFollowsDistance(g, c, seen, b, [], d + 1);
    }
  }

  lemma {:induction false} BfsTakesHead(g: Hierarchy, c: string, seen: set<string>, a: seq<string>, b: seq<string>,
                                        d: nat)
    requires Queueable(g, a + b)
    requires a != [] && Sweep(ArcsOf(g), c, seen, a, b, d)
    ensures InOrder(ArcsOf(g), c, seen, Bfs(g, seen, a + b))
    decreases |Supertypes(g) - seen|, |a + b|, |b|, 0
  {
    var q, b' := a[0], b + Successors(g, a[0]);
    assert (a + b)[1..] == a[1..] + b;
    assert a[1..] + b + Successors(g, q) == a[1..] + b';
    SweepStep(g, c, seen, a, b, d);
    if q in seen {
      BfsFollowsDistance(g, c, seen, a[1..], b, d);
    } else {
      FewerUnseen(g, seen, q);
      BfsFollowsDistance(g, c, seen + {q}, a[1..], b', d);
      NearestHead(ArcsOf(g), c, seen, a, b, d, Bfs(g, seen + {q}, a[1..] + b'));
    }
  }

  lemma NothingLeft(r: Arcs, c: string, seen: set<string>, d: nat)
    requires Sweep(r, c, seen, [], [], d)
    ensures InOrder(r, c, seen, [])
  {
    forall v, n: nat | Steps(r, c, v, n) ensures v in seen {
      if n > 0 { ClosedHoldsAbove(r, c, seen, v, n); }
    }
  }

  lemma NearestHead(r: Arcs, c: string, seen: set<string>, a: seq<string>, b: seq<string>, d: nat, tail: seq<string>)
    requires a != [] && a[0] !in seen && Sweep(r, c, seen, a, b, d)
    requires InOrder(r, c, seen + {a[0]}, tail)
    ensures InOrder(r, c, seen, [a[0]] + tail)
  {
    var s := [a[0]] + tail;
    assert Steps(r, c, a[0], d);
    forall i, j, n: nat | 0 <= i < j < |s| && Within(r, c, s[j], n)
      ensures Within(r, c, s[i], n)
    {
      var k: nat :| k <= n && Steps(r, c, s[j], k);
      assert s[j] == tail[j - 1];
      if i > 0 { assert s[i] == tail[i - 1]; }
    }
  }

  /** The chain lists exactly the other classes reachable over supertype arcs, each once, nearest first. */
  lemma ChainIsNearestFirst(g: Hierarchy, c: string)
    ensures Distinct(AncestorChain(g, c))
    ensures forall v :: v in AncestorChain(g, c) <==> v != c && Reaches(ArcsOf(g), c, v)
    ensures NearestFirst(ArcsOf(g), c, AncestorChain(g, c))
  {
    var r := ArcsOf(g);
    assert Steps(r, c, c, 0);
    forall v | v in Successors(g, c) ensures Steps(r, c, v, 1) {
      StepsSnoc(r, c, c, v, 0);
    }
    assert [] + Successors(g, c) == Successors(g, c);
    BfsFollowsDistance(g, c, {c}, [], Successors(g, c), 0);
  }
}
