/** Reachability marks: the boolean closures over trusted calls, and the universe between them. */
module Reach {
  import opened GraphModel
  import opened Graphs

  datatype Call = Call(caller: string, callee: string, strategy: string)

  /** The functions and calls of one repository. */
  type Calls = set<Call>

  const MAX_ITERATIONS: nat := 50

  predicate HasPrefix(s: string, p: string) { |p| <= |s| && s[..|p|] == p }

  predicate Trusted(strategy: string) {
    strategy == "bytecode" || HasPrefix(strategy, "receiver_type") || HasPrefix(strategy, "same_")
  }

  /** Read from bytecode, or resolved by the receiver or by the caller's own surroundings. */
  ghost predicate Sure(strategy: string) {
    strategy == "bytecode" || "receiver_type" <= strategy || "same_" <= strategy
  }

  lemma TrustedIffSure(strategy: string)
    ensures Trusted(strategy) <==> Sure(strategy)
  {
  }

  ghost function TrustedArcs(calls: Calls): Arcs { set c | c in calls && Sure(c.strategy) :: (c.caller, c.callee) }

  /** `f` is at most `k` trusted calls away from a seed. */
  ghost predicate Near(r: Arcs, seeds: set<string>, f: string, k: nat) {
    exists s :: s in seeds && Within(r, f, s, k)
  }

  ghost predicate Closes(r: Arcs, seeds: set<string>, f: string) {
    exists s :: s in seeds && Reaches(r, f, s)
  }

  ghost predicate MarkedWithin(r: Arcs, seeds: set<string>, marks: set<string>, k: nat) {
    forall f :: f in marks <==> Near(r, seeds, f, k)
  }

  ghost predicate MarkedAll(r: Arcs, seeds: set<string>, marks: set<string>) {
    forall f :: f in marks <==> Closes(r, seeds, f)
  }

  /** One more round marks exactly one more hop. */
  lemma NearNext(r: Arcs, seeds: set<string>, f: string, k: nat)
    ensures Near(r, seeds, f, k + 1) <==> Near(r, seeds, f, k) || exists g :: (f, g) in r && Near(r, seeds, g, k)
  {
    if Near(r, seeds, f, k + 1) && !Near(r, seeds, f, k) {
      var s :| s in seeds && Within(r, f, s, k + 1);
      var n: nat :| n <= k + 1 && Steps(r, f, s, n);
      assert !Within(r, f, s, k);
      var g :| (f, g) in r && Steps(r, g, s, n - 1);
      assert Within(r, g, s, k);
    }
    if Near(r, seeds, f, k) {
      var s :| s in seeds && Within(r, f, s, k);
      var n: nat :| n <= k && Steps(r, f, s, n);
      assert Within(r, f, s, k + 1);
    }
    if g :| (f, g) in r && Near(r, seeds, g, k) {
      var s :| s in seeds && Within(r, g, s, k);
      var n: nat :| n <= k && Steps(r, g, s, n);
      assert Steps(r, f, s, n + 1);
      assert Within(r, f, s, k + 1);
    }
  }

  lemma NearZero(r: Arcs, seeds: set<string>, f: string)
    ensures Near(r, seeds, f, 0) <==> f in seeds
  {
    if f in seeds {
      assert Steps(r, f, f, 0);
      assert Within(r, f, f, 0);
    }
  }

  lemma NearCloses(r: Arcs, seeds: set<string>, f: string, k: nat)
    requires Near(r, seeds, f, k)
    ensures Closes(r, seeds, f)
  {
    var s :| s in seeds && Within(r, f, s, k);
    var n: nat :| n <= k && Steps(r, f, s, n);
    assert Reaches(r, f, s);
  }

  /** A set that holds the seeds and every caller of a member holds everything that reaches a seed. */
  lemma {:induction false} ClosedHoldsReaching(r: Arcs, marks: set<string>, f: string, s: string, n: nat)
    requires s in marks && Steps(r, f, s, n)
    requires forall u, w :: (u, w) in r && w in marks ==> u in marks
    ensures f in marks
    decreases n
  {
    if n != 0 {
      var g :| (f, g) in r && Steps(r, g, s, n - 1);
      ClosedHoldsReaching(r, marks, g, s, n - 1);
    }
  }

  lemma SettledIsClosure(r: Arcs, seeds: set<string>, marks: set<string>, k: nat)
    requires MarkedWithin(r, seeds, marks, k)
    requires forall u, w :: (u, w) in r && w in marks ==> u in marks
    ensures MarkedAll(r, seeds, marks)
  {
    forall f | f in marks ensures Closes(r, seeds, f) {
      NearCloses(r, seeds, f, k);
    }
    forall f | Closes(r, seeds, f) ensures f in marks {
      var s :| s in seeds && Reaches(r, f, s);
      var n: nat :| Steps(r, f, s, n);
      assert Steps(r, s, s, 0);
      assert Within(r, s, s, k);
      assert Near(r, seeds, s, k);
      ClosedHoldsReaching(r, marks, f, s, n);
    }
  }

  /** The unmarked functions with an arc into the marked ones: one query, answered before it writes. */
  function Newly(arcs: Arcs, marks: set<string>): set<string> {
    set a | a in arcs && a.1 in marks && a.0 !in marks :: a.0
  }

  /** The marks after `k` rounds. */
  ghost function Rounds(arcs: Arcs, seeds: set<string>, k: nat): set<string> {
    if k == 0 then seeds else var marks := Rounds(arcs, seeds, k - 1); marks + Newly(arcs, marks)
  }

  lemma {:induction false} RoundsAreHops(arcs: Arcs, seeds: set<string>, k: nat)
    ensures MarkedWithin(arcs, seeds, Rounds(arcs, seeds, k), k)
  {
    if k == 0 {
      forall f ensures Near(arcs, seeds, f, 0) <==> f in seeds { NearZero(arcs, seeds, f); }
    } else {
      RoundsAreHops(arcs, seeds, k - 1);
      RoundIsOneHop(arcs, seeds, Rounds(arcs, seeds, k - 1), k - 1);
    }
  }

  /**
    * One hop per round until a round marks nothing, or the guard stops it.
    * Converged, the marks are the closure of the seeds; stopped, they are everything within the guard's hops.
    */
  method Propagate(arcs: Arcs, seeds: set<string>)
    returns (marks: set<string>, iterations: nat, propagated: nat, converged: bool)
    ensures 0 < iterations <= MAX_ITERATIONS && MarkedWithin(arcs, seeds, marks, iterations)
    ensures converged ==> MarkedAll(arcs, seeds, marks)
    ensures !converged ==> iterations == MAX_ITERATIONS
    ensures |marks| == |seeds| + propagated
  {
    marks, iterations, propagated, converged := seeds, 0, 0, false;
    while iterations < MAX_ITERATIONS && !converged
      invariant iterations <= MAX_ITERATIONS && (converged ==> 0 < iterations)
      invariant marks == Rounds(arcs, seeds, iterations)
      invariant |marks| == |seeds| + propagated
      invariant converged ==> Newly(arcs, marks) == {}
      decreases MAX_ITERATIONS - iterations
    {
      var newly;
      marks, newly := MarkRound(arcs, marks);
      iterations := iterations + 1;
      propagated := propagated + newly;
      if newly == 0 {
        converged := true;
      }
    }
    RoundsAreHops(arcs, seeds, iterations);
    if converged {
      NoneNewly(arcs, seeds, marks, iterations);
    }
  }

  method MarkRound(arcs: Arcs, marks: set<string>) returns (marks': set<string>, newly: nat)
    ensures marks' == marks + Newly(arcs, marks)
    ensures |marks'| == |marks| + newly && (newly == 0 ==> Newly(arcs, marks') == {})
  {
    var hit := Newly(arcs, marks);
    assert marks !! hit;
    marks', newly := marks + hit, |hit|;
    assert newly == 0 ==> marks' == marks;
  }

  lemma NoneNewly(arcs: Arcs, seeds: set<string>, marks: set<string>, k: nat)
    requires MarkedWithin(arcs, seeds, marks, k) && Newly(arcs, marks) == {}
    ensures MarkedAll(arcs, seeds, marks)
  {
    forall u, w | (u, w) in arcs && w in marks ensures u in marks {
      assert u !in marks ==> (u, w).0 in Newly(arcs, marks);
    }
    SettledIsClosure(arcs, seeds, marks, k);
  }

  lemma RoundIsOneHop(arcs: Arcs, seeds: set<string>, marks: set<string>, k: nat)
    requires MarkedWithin(arcs, seeds, marks, k)
    ensures MarkedWithin(arcs, seeds, marks + Newly(arcs, marks), k + 1)
  {
    forall f ensures f in marks + Newly(arcs, marks) <==> Near(arcs, seeds, f, k + 1) {
      NearNext(arcs, seeds, f, k);
      if g :| (f, g) in arcs && Near(arcs, seeds, g, k) {
        assert f in marks || (f, g).0 in Newly(arcs, marks);
      }
    }
  }

  lemma SeedsStayMarked(r: Arcs, seeds: set<string>, marks: set<string>, k: nat)
    requires MarkedWithin(r, seeds, marks, k)
    ensures seeds <= marks
  {
    forall f | f in seeds ensures f in marks {
      assert Steps(r, f, f, 0);
      assert Within(r, f, f, k);
      assert Near(r, seeds, f, k);
    }
  }

  /** What the graph knows of one function before the marking. */
  datatype Function = Function(
    externalKinds: seq<string>, summaryFresh: bool, summaryNamesSink: bool, categories: seq<string>,
    annotations: seq<string>, exposesEndpoint: bool, lang: string, name: string, taintSource: bool, sigEntry: bool)

  type Repo = map<string, Function>

  function Dangerous(fn: Function, kinds: set<string>): seq<string> {
    Select(fn.externalKinds, (k: string) => k in kinds)
  }

  predicate Touches(fn: Function) { fn.summaryFresh && fn.summaryNamesSink }

  predicate IsEntrySeed(fn: Function, entryAnnotations: set<string>) {
    || (exists a :: a in fn.annotations && a in entryAnnotations)
    || fn.exposesEndpoint
    || (fn.lang == "jsp" && fn.name == "_jspService")
    || fn.taintSource || fn.sigEntry
  }

  function EntrySeeds(repo: Repo, entryAnnotations: set<string>): set<string> {
    set f | f in repo && IsEntrySeed(repo[f], entryAnnotations)
  }

  /** A walk along arcs, as the list of its functions. */
  ghost predicate IsWalk(r: Arcs, w: seq<string>) {
    w != [] && forall i :: 0 <= i < |w| - 1 ==> (w[i], w[i + 1]) in r
  }

  /** `f` lies on a walk from an entry seed to a sink seed. */
  ghost predicate OnFlow(r: Arcs, entries: set<string>, sinks: set<string>, f: string) {
    exists w :: IsWalk(r, w) && w[0] in entries && w[|w| - 1] in sinks && f in w
  }

  lemma {:induction false} WalkOfSteps(r: Arcs, a: string, b: string, n: nat) returns (w: seq<string>)
    requires Steps(r, a, b, n)
    ensures IsWalk(r, w) && w[0] == a && w[|w| - 1] == b
    decreases n
  {
    if n == 0 {
      w := [a];
    } else {
      var m :| (a, m) in r && Steps(r, m, b, n - 1);
      var rest := WalkOfSteps(r, m, b, n - 1);
      w := [a] + rest;
    }
  }

  lemma {:induction false} StepsOfWalk(r: Arcs, w: seq<string>, i: nat, j: nat)
    requires IsWalk(r, w) && i <= j < |w|
    ensures Steps(r, w[i], w[j], j - i)
    decreases j - i
  {
    if i < j {
      StepsOfWalk(r, w, i + 1, j);
    }
  }

  /** The marks of both closures meet exactly on the walks from entry seeds to sink seeds. */
  lemma UniverseIsOnFlow(r: Arcs, entries: set<string>, sinks: set<string>, reachesSink: set<string>,
                         fromEntry: set<string>, f: string)
    requires MarkedAll(r, sinks, reachesSink) && MarkedAll(Reverse(r), entries, fromEntry)
    ensures f in reachesSink * fromEntry <==> OnFlow(r, entries, sinks, f)
  {
    if f in reachesSink * fromEntry {
      var s :| s in sinks && Reaches(r, f, s);
      var n: nat :| Steps(r, f, s, n);
      var e :| e in entries && Reaches(Reverse(r), f, e);
      var m: nat :| Steps(Reverse(r), f, e, m);
      StepsReverse(r, e, f, m);
      var before := WalkOfSteps(r, e, f, m);
      var after := WalkOfSteps(r, f, s, n);
      var w := before + after[1..];
      assert w[|before| - 1] == f;
      assert IsWalk(r, w) && w[0] in entries && w[|w| - 1] in sinks;
    }
    if OnFlow(r, entries, sinks, f) {
      var w :| IsWalk(r, w) && w[0] in entries && w[|w| - 1] in sinks && f in w;
      var i :| 0 <= i < |w| && w[i] == f;
      StepsOfWalk(r, w, 0, i);
      StepsReverse(r, w[0], f, i);
      assert Reaches(Reverse(r), f, w[0]);
      StepsOfWalk(r, w, i, |w| - 1);
      assert Reaches(r, f, w[|w| - 1]);
    }
  }
}
