/** The marking step: clear, sink marks, sink kinds, entry marks, universe. */
module ReachMarks {
  import opened Graphs
  import opened Reach
  import opened ReachKinds

  const DANGEROUS_KINDS: set<string> :=
    {"db_execute", "db_other", "exec", "file_write", "deserialize", "response", "reflection"}

  const CATEGORY_TO_KIND: map<string, string> := map[
    "CWE-78/command-injection" := "exec", "CWE-94/code-injection" := "exec",
    "CWE-22/path-traversal" := "file_write", "CWE-502/unsafe-deserialization" := "deserialize",
    "CWE-79/xss" := "response", "CWE-113/response-splitting" := "response",
    "CWE-89/sql-injection" := "db_execute", "CWE-943/nosql-injection" := "db_execute"]

  type Catalog = map<string, string>

  /** The sink kinds of catalog categories, one per category: two categories may share a kind. */
  function Translated(catalog: Catalog, categories: seq<string>): (ks: seq<string>)
    ensures |ks| == |categories|
  {
    seq(|categories|, i requires 0 <= i < |categories| => if categories[i] in catalog then catalog[categories[i]]
      else "taint_sink")
  }

  function Once(xs: seq<string>): (ys: seq<string>)
    ensures forall y :: y in ys <==> y in xs
    ensures ys == [] <==> xs == []
  {
    if xs == [] then [] else
      var front := Once(xs[..|xs| - 1]);
      var x := xs[|xs| - 1];
      assert xs == xs[..|xs| - 1] + [x];
      if x in front then front else front + [x]
  }

  /** What the graph knows and what the query parameters are. */
  datatype Input = Input(repo: Repo, calls: Calls, kinds: set<string>, useSummaries: bool, catalog: Catalog,
                         entryAnnotations: set<string>) {
    ghost predicate Valid() {
      forall c :: c in calls ==> c.caller in repo && c.callee in repo
    }
    /** It calls an external of a dangerous kind. */
    ghost predicate CallsDanger(f: string) requires f in repo {
      exists k :: k in repo[f].externalKinds && k in kinds
    }
    /** Its summary counts, is fresh and names a sink. */
    ghost predicate SaysSink(f: string) requires f in repo {
      useSummaries && repo[f].summaryFresh && repo[f].summaryNamesSink
    }
    ghost predicate SinkSeed(f: string) requires f in repo {
      CallsDanger(f) || SaysSink(f) || repo[f].categories != []
    }
    predicate External(f: string) requires f in repo { Dangerous(repo[f], kinds) != [] }
    predicate Summarised(f: string) requires f in repo { useSummaries && Touches(repo[f]) }
    predicate Cataloged(f: string) requires f in repo { repo[f].categories != [] }
    ghost function Arcs(): Arcs { TrustedArcs(calls) }
    ghost function Sinks(): set<string> { set f | f in repo && SinkSeed(f) }
    function Entries(): set<string> { EntrySeeds(repo, entryAnnotations) }
    function CatalogKinds(f: string): seq<string> requires f in repo { Translated(catalog, repo[f].categories) }
  }

  lemma SeedsInWords(x: Input, f: string)
    requires f in x.repo
    ensures x.External(f) <==> x.CallsDanger(f)
    ensures x.Summarised(f) <==> x.SaysSink(f)
    ensures x.Cataloged(f) <==> x.repo[f].categories != []
  {
    var some := Dangerous(x.repo[f], x.kinds);
    if some != [] { assert some[0] in some; }
    if k :| k in x.repo[f].externalKinds && k in x.kinds { assert k in some; }
  }

  /** The kinds a seed is marked with: those of its dangerous calls; without any, unless a summary names a sink, those
      its catalog categories stand for. */
  ghost predicate SeededWithKind(x: Input, f: string, k: string) {
    && f in x.repo
    && if x.CallsDanger(f) then k in x.repo[f].externalKinds && k in x.kinds
       else !x.SaysSink(f) && exists c :: c in x.repo[f].categories && KindOfCategory(x.catalog, c, k)
  }

  ghost predicate KindOfCategory(catalog: Catalog, category: string, kind: string) {
    if category in catalog then kind == catalog[category] else kind == "taint_sink"
  }

  lemma TranslatedKinds(catalog: Catalog, categories: seq<string>, k: string)
    ensures k in Translated(catalog, categories) <==> exists c :: c in categories && KindOfCategory(catalog, c, k)
  {
    var ks := Translated(catalog, categories);
    if k in ks {
      var i :| 0 <= i < |ks| && ks[i] == k;
      assert KindOfCategory(catalog, categories[i], k);
    }
    if c :| c in categories && KindOfCategory(catalog, c, k) {
      var i :| 0 <= i < |categories| && categories[i] == c;
      assert ks[i] == k;
    }
  }

  /** The seeds' lists hold exactly these kinds. */
  lemma SeedKindsMean(x: Input, f: string, k: string)
    ensures k in ListOf(SeedKinds(x), f) <==> SeededWithKind(x, f, k)
  {
    if f in x.repo {
      SeedsInWords(x, f);
      TranslatedKinds(x.catalog, x.repo[f].categories, k);
    }
  }

  /** `f` reaches a seed of the kind by trusted calls. */
  ghost predicate ReachesKind(x: Input, f: string, k: string) {
    exists g :: SeededWithKind(x, g, k) && Reaches(x.Arcs(), f, g)
  }

  lemma ReachedIsSeeded(x: Input, f: string, k: string)
    ensures KindReached(x.Arcs(), SeedKinds(x), f, k) <==> ReachesKind(x, f, k)
  {
    if g :| k in ListOf(SeedKinds(x), g) && Reaches(x.Arcs(), f, g) { SeedKindsMean(x, g, k); }
    if g :| SeededWithKind(x, g, k) && Reaches(x.Arcs(), f, g) { SeedKindsMean(x, g, k); }
  }

  /** The catalog translates into dangerous kinds only. */
  lemma CatalogIsDangerous(category: string)
    requires category in CATEGORY_TO_KIND
    ensures CATEGORY_TO_KIND[category] in DANGEROUS_KINDS
  {
  }

  /** Which kinds each seed ends up with: direct calls first, none behind a summary, otherwise the catalog's. */
  function SeedKinds(x: Input): Lists {
    map f | f in x.repo && (x.External(f) || (!x.Summarised(f) && x.Cataloged(f)))
      :: if x.External(f) then Once(Dangerous(x.repo[f], x.kinds)) else x.CatalogKinds(f)
  }

  /**
    * A seed the catalog recognised keeps the catalog's kinds unless a fresh summary names a sink or a direct call
    * supplies kinds that do not include them.
    */
  lemma CatalogKindsKeptIff(x: Input, f: string)
    requires f in x.repo
    ensures (forall k :: k in x.CatalogKinds(f) ==> k in ListOf(SeedKinds(x), f)) <==>
      !x.Cataloged(f) || (!x.External(f) && !x.Summarised(f))
      || (x.External(f) && forall k :: k in x.CatalogKinds(f) ==> k in Dangerous(x.repo[f], x.kinds))
  {
    if x.Cataloged(f) {
      assert x.CatalogKinds(f)[0] in x.CatalogKinds(f);
    }
  }

  /** Every seeded list is nonempty, and only sink seeds have one. */
  lemma SeedKindsNonempty(x: Input, f: string)
    requires f in SeedKinds(x)
    ensures f in x.Sinks() && SeedKinds(x)[f] != []
  {
    SeedsInWords(x, f);
  }

  /** One command execution behind a fresh summary: marked as reaching a sink, of no kind. */
  lemma SummaryHidesCatalog() returns (x: Input, f: string)
    ensures x.Valid() && f in x.repo && x.catalog == CATEGORY_TO_KIND && x.kinds == DANGEROUS_KINDS
    ensures f in x.Sinks() && "exec" in x.CatalogKinds(f) && ListOf(SeedKinds(x), f) == []
  {
    f := "run";
    var fn := Function([], true, true, ["CWE-78/command-injection"], [], false, "java", "run", false, false);
    x := Input(map[f := fn], {}, DANGEROUS_KINDS, true, CATEGORY_TO_KIND, {});
    assert x.CatalogKinds(f)[0] == "exec";
  }

  /** The kinds pass covers the boolean marks exactly when every sink seed reaches a seed that has kinds. */
  lemma KindsCoverMarksIff(x: Input, marks: set<string>, lists: Lists)
    requires MarkedAll(x.Arcs(), x.Sinks(), marks)
    requires forall f, k :: k in KindSet(lists, f) <==> KindReached(x.Arcs(), SeedKinds(x), f, k)
    ensures (forall f :: f in marks <==> KindSet(lists, f) != {}) <==>
      (forall s :: s in x.Sinks() ==> exists g :: g in SeedKinds(x) && Reaches(x.Arcs(), s, g))
  {
    var r := x.Arcs();
    if forall f :: f in marks <==> KindSet(lists, f) != {} {
      forall s | s in x.Sinks() ensures exists g :: g in SeedKinds(x) && Reaches(r, s, g) {
        ReachesSelf(r, s);
        assert Closes(r, x.Sinks(), s);
        HasKindIff(x, lists, s);
      }
    }
    if forall s :: s in x.Sinks() ==> exists g :: g in SeedKinds(x) && Reaches(r, s, g) {
      forall f ensures f in marks <==> KindSet(lists, f) != {} {
        CoveredBy(x, marks, lists, f);
      }
    }
  }

  lemma ReachesSelf(r: Arcs, a: string)
    ensures Reaches(r, a, a)
  {
    assert Steps(r, a, a, 0);
  }

  lemma CoveredBy(x: Input, marks: set<string>, lists: Lists, f: string)
    requires MarkedAll(x.Arcs(), x.Sinks(), marks)
    requires forall f, k :: k in KindSet(lists, f) <==> KindReached(x.Arcs(), SeedKinds(x), f, k)
    requires forall s :: s in x.Sinks() ==> exists g :: g in SeedKinds(x) && Reaches(x.Arcs(), s, g)
    ensures f in marks <==> KindSet(lists, f) != {}
  {
    HasKindIff(x, lists, f);
    if f in marks {
      var s :| s in x.Sinks() && Reaches(x.Arcs(), f, s);
      var g :| g in SeedKinds(x) && Reaches(x.Arcs(), s, g);
      ReachesThrough(x.Arcs(), f, s, g);
    }
    if g :| g in SeedKinds(x) && Reaches(x.Arcs(), f, g) {
      SeedKindsNonempty(x, g);
      assert Closes(x.Arcs(), x.Sinks(), f);
    }
  }

  lemma ReachesThrough(r: Arcs, a: string, b: string, c: string)
    requires Reaches(r, a, b) && Reaches(r, b, c)
    ensures Reaches(r, a, c)
  {
    var i: nat :| Steps(r, a, b, i);
    var j: nat :| Steps(r, b, c, j);
    StepsConcat(r, a, b, c, i, j);
  }

  lemma HasKindIff(x: Input, lists: Lists, f: string)
    requires forall k :: k in KindSet(lists, f) <==> KindReached(x.Arcs(), SeedKinds(x), f, k)
    ensures KindSet(lists, f) != {} <==> exists g :: g in SeedKinds(x) && Reaches(x.Arcs(), f, g)
  {
    if k :| k in KindSet(lists, f) {
      var g :| k in ListOf(SeedKinds(x), g) && Reaches(x.Arcs(), f, g);
      assert g in SeedKinds(x);
    }
    if g :| g in SeedKinds(x) && Reaches(x.Arcs(), f, g) {
      SeedKindsNonempty(x, g);
      var k := SeedKinds(x)[g][0];
      assert k in ListOf(SeedKinds(x), g);
      assert KindReached(x.Arcs(), SeedKinds(x), f, k);
    }
  }

  function GraphLists(x: Input): Lists {
    map f | f in x.repo && x.External(f) :: Once(Dangerous(x.repo[f], x.kinds))
  }

  function CatalogLists(x: Input, marked: set<string>): Lists {
    map f | f in x.repo && x.Cataloged(f) && f !in marked :: x.CatalogKinds(f)
  }

  lemma SeedsJoin(x: Input, marked: set<string>)
    requires forall f :: f in marked <==> f in x.repo && (x.External(f) || x.Summarised(f))
    ensures marked + CatalogLists(x, marked).Keys == x.Sinks()
    ensures GraphLists(x) + CatalogLists(x, marked) == SeedKinds(x)
  {
    forall f ensures f in marked + CatalogLists(x, marked).Keys <==> f in x.Sinks() {
      if f in x.repo { SeedsInWords(x, f); }
    }
    ListsJoin(x, marked);
  }

  lemma ListsJoin(x: Input, marked: set<string>)
    requires forall f :: f in marked <==> f in x.repo && (x.External(f) || x.Summarised(f))
    ensures GraphLists(x) + CatalogLists(x, marked) == SeedKinds(x)
  {
  }

  /** The rounds from some seeds, which stay marked. */
  method MarkFrom(arcs: Arcs, seeds: set<string>) returns (marks: set<string>, converged: bool)
    ensures seeds <= marks
    ensures if converged then MarkedAll(arcs, seeds, marks) else MarkedWithin(arcs, seeds, marks, MAX_ITERATIONS)
  {
    var iterations, propagated;
    marks, iterations, propagated, converged := Propagate(arcs, seeds);
    SeedsStayMarked(arcs, seeds, marks, iterations);
  }

  /** The marks stored on the functions of one repository. */
  class Marks {
    var reachesSink: set<string>
    var fromEntry: set<string>
    var sinkKinds: Lists
    var reachKinds: Lists

    constructor ()
      ensures Valid()
    {
      reachesSink, fromEntry, sinkKinds, reachKinds := {}, {}, map[], map[];
    }

    /** A function carries sink kinds only if it is marked. */
    predicate Valid() reads this { sinkKinds.Keys <= reachesSink }

    /** The query matches functions that carry one of the three marks; sink kinds go with them. */
    method Clear()
      requires Valid()
      modifies this
      ensures Valid() && reachesSink == {} && fromEntry == {} && sinkKinds == map[] && reachKinds == map[]
    {
      var hit := reachesSink + fromEntry + reachKinds.Keys;
      sinkKinds, reachKinds := sinkKinds - hit, reachKinds - hit;
      reachesSink, fromEntry := reachesSink - hit, fromEntry - hit;
    }

    /** The three seed queries, in order; the later ones skip functions already marked. */
    method SeedSinks(x: Input)
      requires reachesSink == {} && sinkKinds == map[]
      modifies this
      ensures reachesSink == x.Sinks() && sinkKinds == SeedKinds(x) && Valid()
      ensures fromEntry == old(fromEntry) && reachKinds == old(reachKinds)
    {
      sinkKinds := GraphLists(x);
      reachesSink := sinkKinds.Keys;
      if x.useSummaries {
        reachesSink := reachesSink + set f | f in x.repo && Touches(x.repo[f]) && f !in reachesSink;
      }
      SeedsJoin(x, reachesSink);
      var cataloged := CatalogLists(x, reachesSink);
      reachesSink := reachesSink + cataloged.Keys;
      sinkKinds := sinkKinds + cataloged;
    }

    method MarkReachesSink(x: Input) returns (converged: bool)
      requires Valid() && reachesSink == {} && sinkKinds == map[]
      modifies this
      ensures Valid() && sinkKinds == SeedKinds(x)
      ensures converged ==> MarkedAll(x.Arcs(), x.Sinks(), reachesSink)
      ensures !converged ==> MarkedWithin(x.Arcs(), x.Sinks(), reachesSink, MAX_ITERATIONS)
      ensures fromEntry == old(fromEntry) && reachKinds == old(reachKinds)
    {
      SeedSinks(x);
      var arcs := set c | c in x.calls && Trusted(c.strategy) :: (c.caller, c.callee);
      assert arcs == x.Arcs() by { ArcsAreTrusted(x.calls); }
      reachesSink, converged := MarkFrom(arcs, reachesSink);
    }

    method MarkKinds(x: Input) returns (converged: bool, grown: nat)
      requires x.Valid() && Valid() && sinkKinds == SeedKinds(x) && reachKinds == map[]
      modifies this`reachKinds
      ensures converged ==> forall f, k :: k in KindSet(reachKinds, f) <==> ReachesKind(x, f, k)
      ensures !converged ==> KindsWithin(x.Arcs(), SeedKinds(x), reachKinds, MAX_ITERATIONS)
      ensures grown <= |x.repo| * |AllKinds(SeedKinds(x))|
    {
      var seeds := map f | f in sinkKinds && |sinkKinds[f]| > 0 && f !in reachKinds :: sinkKinds[f];
      assert seeds == SeedKinds(x) by {
        forall f | f in SeedKinds(x) ensures SeedKinds(x)[f] != [] { SeedKindsNonempty(x, f); }
      }
      var arcs := set c | c in x.calls && Trusted(c.strategy) :: (c.caller, c.callee);
      ArcsAreTrusted(x.calls);
      var iterations;
      reachKinds, iterations, grown, converged := PropagateKinds(arcs, x.repo.Keys, seeds);
      forall f, k ensures KindReached(x.Arcs(), SeedKinds(x), f, k) <==>
        ReachesKind(x, f, k) { ReachedIsSeeded(x, f, k); }
    }

    /** The five entry queries, in order. */
    method SeedEntries(x: Input)
      modifies this`fromEntry
      ensures fromEntry == x.Entries()
    {
      fromEntry := set f | f in x.repo && exists a :: a in x.repo[f].annotations && a in x.entryAnnotations;
      fromEntry := fromEntry + set f | f in x.repo && x.repo[f].exposesEndpoint && f !in fromEntry;
      fromEntry := fromEntry + set f | f in x.repo && x.repo[f].lang == "jsp" && x.repo[f].name == "_jspService"
        && f !in fromEntry;
      fromEntry := fromEntry + set f | f in x.repo && x.repo[f].taintSource && f !in fromEntry;
      fromEntry := fromEntry + set f | f in x.repo && x.repo[f].sigEntry && f !in fromEntry;
    }

    /** Forward: the same rounds over the reversed arcs. */
    method MarkFromEntry(x: Input) returns (converged: bool)
      requires Valid() && fromEntry == {}
      modifies this`fromEntry
      ensures converged ==> MarkedAll(Reverse(x.Arcs()), x.Entries(), fromEntry)
      ensures !converged ==> MarkedWithin(Reverse(x.Arcs()), x.Entries(), fromEntry, MAX_ITERATIONS)
    {
      SeedEntries(x);
      var back := set c | c in x.calls && Trusted(c.strategy) :: (c.callee, c.caller);
      assert back == Reverse(x.Arcs()) by { BackIsReverse(x.calls); }
      var iterations, propagated;
      fromEntry, iterations, propagated, converged := Propagate(back, fromEntry);
    }

    /** The whole step. When both loops converge, the universe is every function on a walk from an entry seed to a
        sink seed. */
    method MarkAll(x: Input) returns (universe: set<string>, sinkDone: bool, kindsDone: bool, entryDone: bool)
      requires x.Valid() && Valid()
      modifies this
      ensures Valid() && universe == (set f | f in x.repo && f in reachesSink && f in fromEntry)
      ensures sinkDone && entryDone ==> forall f :: f in x.repo ==>
        (f in universe <==> OnFlow(x.Arcs(), x.Entries(), x.Sinks(), f))
      ensures sinkDone ==> MarkedAll(x.Arcs(), x.Sinks(), reachesSink)
      ensures kindsDone ==> forall f, k :: k in KindSet(reachKinds, f) <==> ReachesKind(x, f, k)
      ensures entryDone ==> MarkedAll(Reverse(x.Arcs()), x.Entries(), fromEntry)
    {
      Clear();
      sinkDone := MarkReachesSink(x);
      var grown;
      kindsDone, grown := MarkKinds(x);
      entryDone := MarkFromEntry(x);
      universe := set f | f in x.repo && f in reachesSink && f in fromEntry;
      if sinkDone && entryDone { UniverseIsFlow(x, reachesSink, fromEntry); }
    }
  }

  lemma UniverseIsFlow(x: Input, reachesSink: set<string>, fromEntry: set<string>)
    requires MarkedAll(x.Arcs(), x.Sinks(), reachesSink) && MarkedAll(Reverse(x.Arcs()), x.Entries(), fromEntry)
    ensures forall f :: f in reachesSink && f in fromEntry <==> OnFlow(x.Arcs(), x.Entries(), x.Sinks(), f)
  {
    forall f ensures f in reachesSink && f in fromEntry <==> OnFlow(x.Arcs(), x.Entries(), x.Sinks(), f) {
      UniverseIsOnFlow(x.Arcs(), x.Entries(), x.Sinks(), reachesSink, fromEntry, f);
    }
  }

  lemma ArcsAreTrusted(calls: Calls)
    ensures (set c | c in calls && Trusted(c.strategy) :: (c.caller, c.callee)) == TrustedArcs(calls)
  {
    forall c | c in calls { TrustedIffSure(c.strategy); }
  }

  lemma BackIsReverse(calls: Calls)
    ensures (set c | c in calls && Trusted(c.strategy) :: (c.callee, c.caller)) == Reverse(TrustedArcs(calls))
  {
    var back := set c | c in calls && Trusted(c.strategy) :: (c.callee, c.caller);
    ArcsAreTrusted(calls);
    forall c | c in calls { TrustedIffSure(c.strategy); }
    forall a | a in back ensures a in Reverse(TrustedArcs(calls)) {
      var c :| c in calls && Trusted(c.strategy) && a == (c.callee, c.caller);
      var e := (c.caller, c.callee);
      assert e in TrustedArcs(calls) && (e.1, e.0) == a;
    }
    forall a | a in Reverse(TrustedArcs(calls)) ensures a in back {
      var e :| e in TrustedArcs(calls) && a == (e.1, e.0);
      var c :| c in calls && Sure(c.strategy) && e == (c.caller, c.callee);
    }
  }
}
