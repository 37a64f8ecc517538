/** The kinds fixpoint: which sink classes each function can reach. */
module ReachKinds {
  import opened GraphModel
  import opened Graphs
  import opened Reach

  /** The kind lists on the stored functions; an absent key is an absent property. */
  type Lists = map<string, seq<string>>

  function ListOf(m: Lists, f: string): seq<string> { if f in m then m[f] else [] }

  ghost function KindSet(m: Lists, f: string): set<string> { set k | k in ListOf(m, f) }

  /** The kinds on the functions `f` calls directly. */
  ghost function Called(arcs: Arcs, m: Lists, f: string): set<string> {
    set a, k | a in arcs && a.0 == f && k in ListOf(m, a.1) :: k
  }

  lemma CalledThrough(arcs: Arcs, m: Lists, f: string, g: string, k: string)
    requires (f, g) in arcs && k in ListOf(m, g)
    ensures k in Called(arcs, m, f)
  {
    assert (f, g).0 == f && (f, g).1 == g;
  }

  lemma CallSite(arcs: Arcs, m: Lists, f: string, k: string) returns (g: string)
    requires k in Called(arcs, m, f)
    ensures (f, g) in arcs && k in ListOf(m, g)
  {
    var a :| a in arcs && a.0 == f && k in ListOf(m, a.1);
    g := a.1;
    assert a == (f, g);
  }

  /** One synchronous round: each function gains the kinds its callees had. */
  ghost predicate IsRound(arcs: Arcs, cur: Lists, next: Lists) {
    forall f :: KindSet(next, f) == KindSet(cur, f) + Called(arcs, cur, f)
  }

  /** `f` is at most `n` trusted calls away from a function seeded with `k`. */
  ghost predicate KindNear(arcs: Arcs, seeds: Lists, f: string, k: string, n: nat) {
    exists g :: k in ListOf(seeds, g) && Within(arcs, f, g, n)
  }

  ghost predicate KindReached(arcs: Arcs, seeds: Lists, f: string, k: string) {
    exists g :: k in ListOf(seeds, g) && Reaches(arcs, f, g)
  }

  ghost predicate KindsWithin(arcs: Arcs, seeds: Lists, m: Lists, n: nat) {
    forall f, k :: k in KindSet(m, f) <==> KindNear(arcs, seeds, f, k, n)
  }

  /** The functions seeded with `k`. */
  ghost function SeededWith(seeds: Lists, k: string): set<string> { set g | g in seeds && k in seeds[g] }

  lemma KindNearIsNear(arcs: Arcs, seeds: Lists, f: string, k: string, n: nat)
    ensures KindNear(arcs, seeds, f, k, n) <==> Near(arcs, SeededWith(seeds, k), f, n)
  {
    if KindNear(arcs, seeds, f, k, n) {
      var g :| k in ListOf(seeds, g) && Within(arcs, f, g, n);
      assert g in SeededWith(seeds, k);
    }
    if Near(arcs, SeededWith(seeds, k), f, n) {
      var g :| g in SeededWith(seeds, k) && Within(arcs, f, g, n);
      assert k in ListOf(seeds, g);
    }
  }

  lemma KindsZero(arcs: Arcs, seeds: Lists)
    ensures KindsWithin(arcs, seeds, seeds, 0)
  {
    forall f, k ensures k in KindSet(seeds, f) <==> KindNear(arcs, seeds, f, k, 0) {
      KindNearIsNear(arcs, seeds, f, k, 0);
      NearZero(arcs, SeededWith(seeds, k), f);
    }
  }

  lemma KindsNext(arcs: Arcs, seeds: Lists, cur: Lists, next: Lists, n: nat)
    requires KindsWithin(arcs, seeds, cur, n) && IsRound(arcs, cur, next)
    ensures KindsWithin(arcs, seeds, next, n + 1)
  {
    forall f, k ensures k in KindSet(next, f) <==> KindNear(arcs, seeds, f, k, n + 1) {
      KindNearIsNear(arcs, seeds, f, k, n);
      KindNearIsNear(arcs, seeds, f, k, n + 1);
      NearNext(arcs, SeededWith(seeds, k), f, n);
      assert k in KindSet(cur, f) <==> KindNear(arcs, seeds, f, k, n);
      if k in Called(arcs, cur, f) {
        var g := CallSite(arcs, cur, f, k);
        assert k in KindSet(cur, g);
        KindNearIsNear(arcs, seeds, g, k, n);
      }
      if g :| (f, g) in arcs && Near(arcs, SeededWith(seeds, k), g, n) {
        KindNearIsNear(arcs, seeds, g, k, n);
        assert k in KindSet(cur, g);
        CalledThrough(arcs, cur, f, g, k);
      }
    }
  }

  /** A round that changes no set of kinds leaves every function the kinds of all it reaches. */
  lemma SettledKinds(arcs: Arcs, seeds: Lists, m: Lists, n: nat)
    requires KindsWithin(arcs, seeds, m, n) && IsRound(arcs, m, m)
    ensures forall f, k :: k in KindSet(m, f) <==> KindReached(arcs, seeds, f, k)
  {
    forall f, k ensures k in KindSet(m, f) <==> KindReached(arcs, seeds, f, k) {
      assert k in KindSet(m, f) <==> KindNear(arcs, seeds, f, k, n);
      if KindNear(arcs, seeds, f, k, n) {
        var g :| k in ListOf(seeds, g) && Within(arcs, f, g, n);
        var i: nat :| i <= n && Steps(arcs, f, g, i);
        assert Reaches(arcs, f, g);
      }
      if KindReached(arcs, seeds, f, k) {
        var g :| k in ListOf(seeds, g) && Reaches(arcs, f, g);
        var i: nat :| Steps(arcs, f, g, i);
        assert Steps(arcs, g, g, 0);
        assert Within(arcs, g, g, n);
        assert KindNear(arcs, seeds, g, k, n);
        KindsFlowBack(arcs, m, f, g, k, i);
      }
    }
  }

  lemma {:induction false} KindsFlowBack(arcs: Arcs, m: Lists, f: string, g: string, k: string, i: nat)
    requires IsRound(arcs, m, m) && k in KindSet(m, g) && Steps(arcs, f, g, i)
    ensures k in KindSet(m, f)
    decreases i
  {
    if i != 0 {
      var x :| (f, x) in arcs && Steps(arcs, x, g, i - 1);
      KindsFlowBack(arcs, m, x, g, k, i - 1);
      CalledThrough(arcs, m, f, x, k);
    }
  }

  /**
    * Merges the callees' lists in whatever order they arrive. A list may repeat a kind, yet the merged list is longer
    * exactly when it has a new kind.
    */
  method MergeLists(own: seq<string>, lists: set<seq<string>>) returns (merged: seq<string>)
    ensures forall k :: k in merged <==> k in own || exists l :: l in lists && k in l
    ensures |merged| > |own| <==> exists k :: k in merged && k !in own
    ensures |merged| >= |own|
  {
    merged := own;
    var rest := lists;
    while rest != {}
      invariant rest <= lists && own <= merged
      invariant forall k :: k in merged <==> k in own || exists l :: l in lists - rest && k in l
      invariant merged == own || merged[|own|] !in own
      decreases |rest|
    {
      var l :| l in rest;
      var news := Select(l, (k: string) => k !in merged);
      NewsOnly(own, merged, l, news, lists - rest);
      assert lists - (rest - {l}) == (lists - rest) + {l};
      merged := merged + news;
      rest := rest - {l};
    }
    assert lists - rest == lists;
    assert merged == own || merged[|own|] in merged;
  }

  lemma NewsOnly(own: seq<string>, merged: seq<string>, l: seq<string>, news: seq<string>, seen: set<seq<string>>)
    requires own <= merged && (merged == own || merged[|own|] !in own)
    requires forall k :: k in news <==> k in l && k !in merged
    requires forall k :: k in merged <==> k in own || exists x :: x in seen && k in x
    ensures own <= merged + news && (merged + news == own || (merged + news)[|own|] !in own)
    ensures forall k :: k in merged + news <==> k in own || exists x :: x in seen + {l} && k in x
  {
    if news != [] { assert news[0] in news; }
    forall k | k in merged + news ensures k in own || exists x :: x in seen + {l} && k in x {
      if k in merged && k !in own {
        var x :| x in seen && k in x;
        assert x in seen + {l};
      } else if k in news {
        assert l in seen + {l};
      }
    }
    forall k | k in own || exists x :: x in seen + {l} && k in x ensures k in merged + news {
    }
  }

  /** The (function, kind) facts that a state of the lists holds. */
  ghost function Facts(m: Lists): set<(string, string)> { set f, k | f in m && k in m[f] :: (f, k) }

  ghost function AllKinds(m: Lists): set<string> { set f, k | f in m && k in m[f] :: k }

  function CalleeLists(arcs: Arcs, m: Lists, f: string): set<seq<string>> {
    set a | a in arcs && a.0 == f && a.1 in m :: m[a.1]
  }

  lemma CalledIsLists(arcs: Arcs, m: Lists, f: string, k: string)
    ensures k in Called(arcs, m, f) <==> exists l :: l in CalleeLists(arcs, m, f) && k in l
  {
    if k in Called(arcs, m, f) {
      var g := CallSite(arcs, m, f, k);
      assert (f, g) in arcs && (f, g).0 == f && (f, g).1 in m;
      assert m[g] in CalleeLists(arcs, m, f);
    }
    if l :| l in CalleeLists(arcs, m, f) && k in l {
      var a :| a in arcs && a.0 == f && a.1 in m && l == m[a.1];
      assert a == (f, a.1);
      CalledThrough(arcs, m, f, a.1, k);
    }
  }

  /** The round's effect on the callers already updated. */
  ghost predicate RoundOn(arcs: Arcs, cur: Lists, next: Lists, done: set<string>) {
    forall f :: KindSet(next, f) == KindSet(cur, f) + if f in done then Called(arcs, cur, f) else {}
  }

  method GrowOne(arcs: Arcs, cur: Lists, next: Lists, f: string, ghost done: set<string>)
    returns (next': Lists, grew: bool)
    requires f !in done && RoundOn(arcs, cur, next, done)
    requires ListOf(next, f) == ListOf(cur, f)
    ensures RoundOn(arcs, cur, next', done + {f})
    ensures forall g :: g != f ==> ListOf(next', g) == ListOf(next, g)
    ensures grew <==> !(Called(arcs, cur, f) <= KindSet(cur, f))
    ensures !grew ==> next' == next
    ensures KindSet(next, f) <= KindSet(next', f) && (grew ==> KindSet(next, f) < KindSet(next', f))
  {
    var merged := MergeLists(ListOf(cur, f), CalleeLists(arcs, cur, f));
    forall k ensures k in Called(arcs, cur, f) <==> exists l :: l in CalleeLists(arcs, cur, f) && k in l {
      CalledIsLists(arcs, cur, f, k);
    }
    grew := |merged| > |ListOf(cur, f)|;
    next' := if grew then next[f := merged] else next;
    assert KindSet(next', f) == KindSet(cur, f) + Called(arcs, cur, f);
    if grew {
      var k :| k in merged && k !in ListOf(cur, f);
      assert k in KindSet(next', f) && k !in KindSet(next, f);
    }
  }

  lemma OneMoreFact(m: Lists, m': Lists, f: string)
    requires forall g :: g != f ==> ListOf(m', g) == ListOf(m, g)
    requires KindSet(m, f) < KindSet(m', f)
    ensures |Facts(m)| < |Facts(m')|
  {
    var k :| k in KindSet(m', f) && k !in KindSet(m, f);
    forall p | p in Facts(m) ensures p in Facts(m') {
      assert p.1 in KindSet(m, p.0);
      assert p.1 in ListOf(m', p.0);
    }
    assert (f, k) in Facts(m') && (f, k) !in Facts(m);
    Smaller(Facts(m), Facts(m'));
  }

  lemma {:induction false} Smaller<T>(a: set<T>, b: set<T>)
    requires a < b
    ensures |a| < |b|
  {
    var x :| x in b && x !in a;
    NoLarger(a, b - {x});
  }

  lemma {:induction false} NoLarger<T>(a: set<T>, b: set<T>)
    requires a <= b
    ensures |a| <= |b|
  {
    if a != {} {
      var x :| x in a;
      NoLarger(a - {x}, b - {x});
    }
  }

  /** Within a round: the callers in `rest` still hold their old lists. */
  ghost predicate MidRound(arcs: Arcs, cur: Lists, next: Lists, rest: set<string>, grown: nat) {
    && RoundOn(arcs, cur, next, Callers(arcs, cur) - rest)
    && (forall f :: f in rest ==> ListOf(next, f) == ListOf(cur, f))
    && |Facts(next)| >= |Facts(cur)| + grown
    && (grown == 0 ==> next == cur)
  }

  lemma MidNext(arcs: Arcs, cur: Lists, next: Lists, rest: set<string>, grown: nat, f: string, next': Lists, grew: bool)
    requires MidRound(arcs, cur, next, rest, grown) && f in rest && rest <= Callers(arcs, cur)
    requires RoundOn(arcs, cur, next', (Callers(arcs, cur) - rest) + {f})
    requires forall g :: g != f ==> ListOf(next', g) == ListOf(next, g)
    requires grew ==> KindSet(next, f) < KindSet(next', f)
    requires !grew ==> next' == next
    ensures MidRound(arcs, cur, next', rest - {f}, grown + if grew then 1 else 0)
  {
    assert (Callers(arcs, cur) - rest) + {f} == Callers(arcs, cur) - (rest - {f});
    if grew { OneMoreFact(next, next', f); }
  }

  method GrowNext(arcs: Arcs, cur: Lists, next: Lists, rest: set<string>, grown: nat)
    returns (next': Lists, rest': set<string>, grown': nat)
    requires MidRound(arcs, cur, next, rest, grown) && rest != {} && rest <= Callers(arcs, cur)
    ensures MidRound(arcs, cur, next', rest', grown') && rest' < rest
  {
    var f :| f in rest;
    var grew;
    next', grew := GrowOne(arcs, cur, next, f, Callers(arcs, cur) - rest);
    MidNext(arcs, cur, next, rest, grown, f, next', grew);
    rest', grown' := rest - {f}, grown + if grew then 1 else 0;
  }

  /** One query: every caller reads the lists as they were before the round. */
  method KindRound(arcs: Arcs, cur: Lists) returns (next: Lists, grown: nat)
    ensures IsRound(arcs, cur, next)
    ensures |Facts(next)| >= |Facts(cur)| + grown
    ensures grown == 0 ==> next == cur
  {
    next, grown := cur, 0;
    var rest := Callers(arcs, cur);
    while rest != {}
      invariant rest <= Callers(arcs, cur) && MidRound(arcs, cur, next, rest, grown)
      decreases rest
    {
      next, rest, grown := GrowNext(arcs, cur, next, rest, grown);
    }
    AllCallersDone(arcs, cur, next, Callers(arcs, cur) - rest);
  }

  function Callers(arcs: Arcs, m: Lists): set<string> { set a | a in arcs && a.1 in m :: a.0 }

  lemma CallerOf(arcs: Arcs, m: Lists, f: string, g: string)
    requires (f, g) in arcs && g in m
    ensures f in Callers(arcs, m)
  {
    assert (f, g).0 == f && (f, g).1 in m;
  }

  lemma AllCallersDone(arcs: Arcs, cur: Lists, next: Lists, done: set<string>)
    requires RoundOn(arcs, cur, next, done) && done == Callers(arcs, cur)
    ensures IsRound(arcs, cur, next)
  {
    forall f | f !in done ensures Called(arcs, cur, f) == {} {
      if k :| k in Called(arcs, cur, f) {
        var g := CallSite(arcs, cur, f, k);
        CallerOf(arcs, cur, f, g);
      }
    }
  }

  ghost function Pairs(a: set<string>, b: set<string>): set<(string, string)> { set f, k | f in a && k in b :: (f, k) }

  lemma {:induction false} Product(a: set<string>, b: set<string>)
    ensures |Pairs(a, b)| == |a| * |b|
    decreases a
  {
    if a == {} {
      assert Pairs(a, b) == {};
    } else {
      var x :| x in a;
      var rest := a - {x};
      Product(rest, b);
      Row(x, b);
      var row := set k | k in b :: (x, k);
      assert Pairs(a, b) == Pairs(rest, b) + row;
      OneRowMore(|rest|, |a|, |b|);
    }
  }

  lemma OneRowMore(n: nat, m: nat, b: nat)
    requires m == n + 1
    ensures m * b == n * b + b
  {
  }

  lemma {:induction false} Row(x: string, b: set<string>)
    ensures |set k | k in b :: (x, k)| == |b|
  {
    if b != {} {
      var y :| y in b;
      Row(x, b - {y});
      assert (set k | k in b :: (x, k)) == (set k | k in b - {y} :: (x, k)) + {(x, y)};
    }
  }

  /** Every fact relates a function of the repository to a kind some seed carries. */
  lemma FactsBounded(arcs: Arcs, functions: set<string>, seeds: Lists, m: Lists, n: nat)
    requires KindsWithin(arcs, seeds, m, n)
    requires seeds.Keys <= functions && forall a :: a in arcs ==> a.0 in functions
    ensures |Facts(m)| <= |functions| * |AllKinds(seeds)|
  {
    forall p | p in Facts(m) ensures p in Pairs(functions, AllKinds(seeds)) {
      var (f, k) := p;
      assert k in KindSet(m, f);
      var g :| k in ListOf(seeds, g) && Within(arcs, f, g, n);
      var i: nat :| i <= n && Steps(arcs, f, g, i);
      if i != 0 {
        var x :| (f, x) in arcs && Steps(arcs, x, g, i - 1);
      }
    }
    NoLarger(Facts(m), Pairs(functions, AllKinds(seeds)));
    Product(functions, AllKinds(seeds));
  }

  /**
    * Rounds until one grows nothing, or the guard stops them. Converged, each function has exactly the kinds of the
    * seeds it reaches; stopped, those within the guard's hops. All growth together fits in functions times kinds.
    */
  method PropagateKinds(arcs: Arcs, ghost functions: set<string>, seeds: Lists)
    returns (lists: Lists, iterations: nat, grown: nat, converged: bool)
    requires seeds.Keys <= functions && forall a :: a in arcs ==> a.0 in functions
    ensures 0 < iterations <= MAX_ITERATIONS && KindsWithin(arcs, seeds, lists, iterations)
    ensures converged ==> forall f, k :: k in KindSet(lists, f) <==> KindReached(arcs, seeds, f, k)
    ensures !converged ==> iterations == MAX_ITERATIONS
    ensures |Facts(seeds)| + grown <= |functions| * |AllKinds(seeds)|
  {
    lists, iterations, grown, converged := seeds, 0, 0, false;
    KindsZero(arcs, seeds);
    while iterations < MAX_ITERATIONS && !converged
      invariant iterations <= MAX_ITERATIONS && (converged ==> 0 < iterations)
      invariant KindsWithin(arcs, seeds, lists, iterations)
      invariant |Facts(lists)| >= |Facts(seeds)| + grown
      invariant converged ==> IsRound(arcs, lists, lists)
      decreases MAX_ITERATIONS - iterations
    {
      ghost var before := lists;
      var newly;
      lists, newly := KindRound(arcs, lists);
      KindsNext(arcs, seeds, before, lists, iterations);
      iterations := iterations + 1;
      grown := grown + newly;
      if newly == 0 {
        converged := true;
      }
    }
    FactsBounded(arcs, functions, seeds, lists, iterations);
    if converged {
      SettledKinds(arcs, seeds, lists, iterations);
    }
  }
}
