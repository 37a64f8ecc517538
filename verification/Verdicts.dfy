/** How a reference is counted, told from its edges and from what the repository names. */
module Verdicts {
  import opened GraphModel
  import opened LookupIndices
  import opened DottedNames
  import opened Narrowing
  import opened Dispatch
  import opened CoverageLedger
  import opened ReferenceEdges
  import opened Visibility
  import opened EdgeTargets
  import opened CallTargets

  /** Resolved stands for one edge, ambiguous for several. */
  ghost predicate CountsEdges(v: Verdict, edges: seq<Edge>) {
    (v == Resolved <==> |edges| == 1) && (v == Ambiguous <==> |edges| > 1)
  }

  /** Without an edge: unresolved when the repository has something of the name after all, external otherwise. */
  ghost predicate Judges(v: Verdict, edges: seq<Edge>, here: bool) {
    CountsEdges(v, edges) && (v == Unresolved <==> edges == [] && here)
  }

  // ---- references that are looked up ---------------------------------------------

  ghost predicate FileNamed(w: World, ref: RawRef) {
    ref.rtype in FILE_REFS && ref.kindHint == "file"
    && exists n :: n in w.nodes && n.tag == "File" && n.name == ref.targetName
  }

  /** The repository has what the reference is about, or a file of the name that does not fit. */
  ghost predicate NamedHere(w: World, cv: Conventions, ref: RawRef) {
    (exists n :: Target(w, cv, ref, n)) || FileNamed(w, ref)
  }

  lemma CappedJudged(cap: nat, ref: RawRef, wanted: seq<Node>, known: bool, confidence: string, strategy: string)
    ensures Judges(VerdictOf(cap, wanted, known, strategy), Capped(cap, ref, wanted, confidence, strategy),
              known || wanted != [])
  {
  }

  lemma WantedIsHere(w: World, cv: Conventions, ref: RawRef, wanted: seq<Node>)
    requires Wants(w, cv, ref, wanted)
    ensures NamedHere(w, cv, ref) <==> wanted != [] || FileNamed(w, ref)
  {
    if wanted != [] { assert wanted[0] in wanted && Target(w, cv, ref, wanted[0]); }
  }

  lemma Judged(w: World, cv: Conventions, ref: RawRef, wanted: seq<Node>, known: bool, confidence: string,
               strategy: string)
    requires Wants(w, cv, ref, wanted) && (known || wanted != [] <==> wanted != [] || FileNamed(w, ref))
    ensures Judges(VerdictOf(cv.cap, wanted, known, strategy), Capped(cv.cap, ref, wanted, confidence, strategy),
              NamedHere(w, cv, ref))
  {
    WantedIsHere(w, cv, ref, wanted);
    CappedJudged(cv.cap, ref, wanted, known, confidence, strategy);
  }

  lemma NoFile(w: World, ref: RawRef)
    requires ref.rtype !in FILE_REFS
    ensures !FileNamed(w, ref)
  {
  }

  lemma HitsJudged(w: World, cv: Conventions, ref: RawRef, wanted: seq<Node>, known: bool, confidence: string,
                   strategy: string)
    requires ref.rtype !in FILE_REFS && Wants(w, cv, ref, wanted) && (known <==> wanted != [])
    ensures Judges(VerdictOf(cv.cap, wanted, known, strategy), Capped(cv.cap, ref, wanted, confidence, strategy),
              NamedHere(w, cv, ref))
  {
    NoFile(w, ref);
    Judged(w, cv, ref, wanted, known, confidence, strategy);
  }

  lemma TypeIsHits(sy: Symbols, cv: Conventions, ref: RawRef, h: Hits, known: bool)
    requires h == NarrowType(sy, ref) && known == (Bucket(sy.ix.classesByName, TailName(ref.targetName)) != [])
    ensures TypeVerdict(sy, cv, ref) == VerdictOf(cv.cap, h.0, known, h.1)
    ensures TypeEdges(sy, cv, ref)
         == Capped(cv.cap, ref, h.0, if h.1 != "name" && h.1 != "none" then EXTRACTED else INFERRED, h.1)
  {
  }

  lemma TypeHitsJudged(sy: Symbols, cv: Conventions, w: World, ref: RawRef, h: Hits, known: bool)
    requires ref.rtype in TYPE_REFS && Wants(w, cv, ref, h.0) && (known <==> h.0 != [])
    requires h == NarrowType(sy, ref) && known == (Bucket(sy.ix.classesByName, TailName(ref.targetName)) != [])
    ensures Judges(TypeVerdict(sy, cv, ref), TypeEdges(sy, cv, ref), NamedHere(w, cv, ref))
  {
    TypeIsHits(sy, cv, ref, h, known);
    HitsJudged(w, cv, ref, h.0, known, if h.1 != "name" && h.1 != "none" then EXTRACTED else INFERRED, h.1);
  }

  lemma TypeJudged(sy: Symbols, cv: Conventions, nodes: seq<Node>, ref: RawRef)
    requires Built(sy.ix, nodes) && TailsPlain(sy.im) && ref.rtype in TYPE_REFS
    ensures Judges(TypeVerdict(sy, cv, ref), TypeEdges(sy, cv, ref), NamedHere(WorldOf(sy, nodes), cv, ref))
  {
    TypeWants(sy, cv, nodes, ref);
    NarrowTypeKeepsSome(sy, ref);
    TypeHitsJudged(sy, cv, WorldOf(sy, nodes), ref, NarrowType(sy, ref),
                   Bucket(sy.ix.classesByName, TailName(ref.targetName)) != []);
  }

  lemma FileNamedIff(sy: Symbols, nodes: seq<Node>, ref: RawRef)
    requires Built(sy.ix, nodes) && ref.rtype in FILE_REFS && ref.kindHint == "file"
    ensures Bucket(sy.ix.filesByBasename, ref.targetName) != [] <==> FileNamed(WorldOf(sy, nodes), ref)
  {
    var named := Bucket(sy.ix.filesByBasename, ref.targetName);
    assert named == Select(nodes, NamedLike({"File"}, ref.targetName));
    if named != [] { assert named[0] in named; }
    if n :| n in nodes && n.tag == "File" && n.name == ref.targetName { assert n in named; }
  }

  lemma FittingIsNamed(sy: Symbols, cv: Conventions, ref: RawRef)
    ensures FileHits(sy, cv, ref).0 != [] ==> Bucket(sy.ix.filesByBasename, ref.targetName) != []
  {
  }

  lemma NoFileHere(w: World, cv: Conventions, ref: RawRef)
    requires ref.rtype in FILE_REFS && ref.kindHint != "file"
    ensures !NamedHere(w, cv, ref)
  {
  }

  lemma FileJudged(sy: Symbols, cv: Conventions, nodes: seq<Node>, ref: RawRef)
    requires Built(sy.ix, nodes) && ref.rtype in FILE_REFS
    ensures Judges(FileVerdict(sy, cv, ref), FileEdges(sy, cv, ref), NamedHere(WorldOf(sy, nodes), cv, ref))
  {
    if ref.kindHint == "file" {
      var h := FileHits(sy, cv, ref);
      FileWants(sy, cv, nodes, ref);
      FileNamedIff(sy, nodes, ref);
      FittingIsNamed(sy, cv, ref);
      Judged(WorldOf(sy, nodes), cv, ref, h.0, Bucket(sy.ix.filesByBasename, ref.targetName) != [], EXTRACTED, h.1);
    } else {
      NoFileHere(WorldOf(sy, nodes), cv, ref);
    }
  }

  lemma HandlerJudged(sy: Symbols, cv: Conventions, nodes: seq<Node>, ref: RawRef)
    requires Built(sy.ix, nodes) && FqnTable(cv.classByFqn, nodes) && ref.rtype == "HANDLED_BY"
    ensures Judges(HandlerVerdict(sy, cv, ref), HandlerEdges(sy, cv, ref), NamedHere(WorldOf(sy, nodes), cv, ref))
  {
    var h := HandlerHits(sy, cv, ref);
    HandlerWants(sy, cv, nodes, ref);
    HitsJudged(WorldOf(sy, nodes), cv, ref, h.0, h.0 != [],
               if ref.targetName in cv.classByFqn then EXTRACTED else INFERRED, h.1);
  }

  lemma FieldJudged(sy: Symbols, cv: Conventions, nodes: seq<Node>, ref: RawRef)
    requires Built(sy.ix, nodes) && ref.rtype in FIELD_REFS
    ensures Judges(FieldVerdict(sy, cv, ref), FieldEdges(sy, cv, ref), NamedHere(WorldOf(sy, nodes), cv, ref))
  {
    var h := FieldHits(sy, ref);
    FieldWants(sy, cv, nodes, ref);
    HitsJudged(WorldOf(sy, nodes), cv, ref, h.0, h.0 != [], EXTRACTED, h.1);
  }

  lemma HintedJudged(sy: Symbols, cv: Conventions, nodes: seq<Node>, ref: RawRef)
    requires Built(sy.ix, nodes) && KindOf(ref.rtype) == Other
    ensures Judges(HintedVerdict(sy, cv, ref), HintedEdges(sy, cv, ref), NamedHere(WorldOf(sy, nodes), cv, ref))
  {
    KindsAgree(ref.rtype);
    HintedWants(sy, cv, nodes, ref);
    HintedHitsPrefer(sy, ref);
    HitsJudged(WorldOf(sy, nodes), cv, ref, HintedHits(sy, ref), ref.targetName in sy.ix.byName, INFERRED, "kind_hint");
  }

  lemma CountedAsType(sy: Symbols, cv: Conventions, ref: RawRef)
    requires ref.rtype in TYPE_REFS && ref.rtype !in cv.droppedTypes
    ensures AccountFor(sy, cv, ref) == Plain(TypeVerdict(sy, cv, ref))
      && AddedFor(sy, cv, ref) == TypeEdges(sy, cv, ref)
  {
    KindsAgree(ref.rtype);
  }

  lemma CountedAsFile(sy: Symbols, cv: Conventions, ref: RawRef)
    requires ref.rtype in FILE_REFS && ref.rtype !in cv.droppedTypes
    ensures AccountFor(sy, cv, ref) == Plain(FileVerdict(sy, cv, ref))
      && AddedFor(sy, cv, ref) == FileEdges(sy, cv, ref)
  {
    KindsAgree(ref.rtype);
  }

  lemma CountedAsHandler(sy: Symbols, cv: Conventions, ref: RawRef)
    requires ref.rtype == "HANDLED_BY" && ref.rtype !in cv.droppedTypes
    ensures AccountFor(sy, cv, ref) == Plain(HandlerVerdict(sy, cv, ref))
      && AddedFor(sy, cv, ref) == HandlerEdges(sy, cv, ref)
  {
    KindsAgree(ref.rtype);
  }

  lemma CountedAsField(sy: Symbols, cv: Conventions, ref: RawRef)
    requires ref.rtype in FIELD_REFS && ref.rtype !in cv.droppedTypes
    ensures AccountFor(sy, cv, ref) == Plain(FieldVerdict(sy, cv, ref))
      && AddedFor(sy, cv, ref) == FieldEdges(sy, cv, ref)
  {
    KindsAgree(ref.rtype);
  }

  lemma CountedAsHinted(sy: Symbols, cv: Conventions, ref: RawRef)
    requires KindOf(ref.rtype) == Other && ref.rtype !in cv.droppedTypes
    ensures AccountFor(sy, cv, ref) == Plain(HintedVerdict(sy, cv, ref))
      && AddedFor(sy, cv, ref) == HintedEdges(sy, cv, ref)
  {
  }

  /** A reference that is looked up is counted once, by its edges, and without any by whether the repository has
      something of the name. */
  lemma LookupJudged(sy: Symbols, cv: Conventions, nodes: seq<Node>, ref: RawRef)
    requires Built(sy.ix, nodes) && FqnTable(cv.classByFqn, nodes) && TailsPlain(sy.im)
    requires ref.rtype !in OTHER_WAYS && ref.rtype !in cv.droppedTypes
    ensures JudgedAs(AccountFor(sy, cv, ref), AddedFor(sy, cv, ref), NamedHere(WorldOf(sy, nodes), cv, ref))
  {
    if ref.rtype in TYPE_REFS {
      TypeJudged(sy, cv, nodes, ref);
      CountedAsType(sy, cv, ref);
    } else if ref.rtype in FILE_REFS {
      FileJudged(sy, cv, nodes, ref);
      CountedAsFile(sy, cv, ref);
    } else if ref.rtype == "HANDLED_BY" {
      HandlerJudged(sy, cv, nodes, ref);
      CountedAsHandler(sy, cv, ref);
    } else if ref.rtype in FIELD_REFS {
      FieldJudged(sy, cv, nodes, ref);
      CountedAsField(sy, cv, ref);
    } else {
      KindsAgree(ref.rtype);
      HintedJudged(sy, cv, nodes, ref);
      CountedAsHinted(sy, cv, ref);
    }
  }

  ghost predicate JudgedAs(a: Account, edges: seq<Edge>, here: bool) { a.Plain? && Judges(a.b, edges, here) }

  // ---- calls ---------------------------------------------------------------------------

  /** Candidates are counted as a call, unless they share only the name with a call on another object, and then as a
      weak reference; a fallback is counted as a weak reference beside the external call. */
  ghost predicate CountedBy(found: bool, byName: bool, a: Account, edges: seq<Edge>) {
    if found then (if byName then a.Demoted? else a.Plain?) && Judges(a.b, edges, true)
    else if edges == [] then a == Plain(External)
    else a.Fallback? && a.b == External && Judges(a.fb, edges, false)
  }

  ghost predicate CallCounted(w: World, cv: Conventions, ref: RawRef, a: Account, edges: seq<Edge>) {
    if ref.refFile in cv.skipFiles || Foreign(w, ref) then a == Plain(External)
    else CountedBy(Called(w, ref), ByNameOnAnother(w, ref), a, edges)
  }

  lemma UnnamedIsUnknown(sy: Symbols, nodes: seq<Node>, ref: RawRef)
    requires Built(sy.ix, nodes) && !Foreign(WorldOf(sy, nodes), ref) && NarrowCall(sy, ref).0 == []
    ensures ref.targetName !in sy.ix.byName
  {
    NarrowCallIsSound(sy, nodes, ref);
    if ref.targetName in sy.ix.byName {
      var named := Bucket(sy.ix.byName, ref.targetName);
      assert named == Select(nodes, NamedLike(CALLABLES, ref.targetName)) && named[0] in named;
      assert CandidateFor(nodes, ref.targetName, named[0]);
    }
  }

  lemma KnownCallJudged(sy: Symbols, cv: Conventions, ref: RawRef, hits: Hits)
    requires ref.rtype == "CALLS" && (hits.0 == [] ==> ref.targetName !in sy.ix.byName)
    ensures CountedBy(hits.0 != [], SharesOnlyName(ref, hits.1), KnownCallAccount(sy, cv, ref, hits.0, hits.1),
              KnownCallEdges(sy, cv, ref, hits.0, hits.1))
  {
    CappedJudged(cv.cap, ref, hits.0, ref.targetName in sy.ix.byName, INFERRED, hits.1);
  }

  lemma CallsAreCalls()
    ensures KindOf("CALLS") == Calls
  {
  }

  lemma CallIsCall(sy: Symbols, cv: Conventions, ref: RawRef)
    requires KindOf(ref.rtype) == Calls && ref.rtype !in cv.droppedTypes
    ensures AccountFor(sy, cv, ref) == CallAccount(sy, cv, ref) && AddedFor(sy, cv, ref) == CallEdges(sy, cv, ref)
  {
  }

  lemma CallIsKnown(sy: Symbols, cv: Conventions, ref: RawRef)
    requires ref.refFile !in cv.skipFiles && NarrowCall(sy, ref).1 != EXTERNAL_RECEIVER
    ensures var hits := NarrowCall(sy, ref);
      && CallAccount(sy, cv, ref) == KnownCallAccount(sy, cv, ref, hits.0, hits.1)
      && CallEdges(sy, cv, ref) == KnownCallEdges(sy, cv, ref, hits.0, hits.1)
  {
  }

  lemma FoundIsCalled(sy: Symbols, nodes: seq<Node>, ref: RawRef)
    requires Built(sy.ix, nodes) && TailsPlain(sy.im) && !Foreign(WorldOf(sy, nodes), ref)
    ensures var w, hits := WorldOf(sy, nodes), NarrowCall(sy, ref);
      && (hits.0 != [] <==> Called(w, ref))
      && (Called(w, ref) ==> (SharesOnlyName(ref, hits.1) <==> ByNameOnAnother(w, ref)))
  {
    NarrowCallRefinesScan(sy, nodes, ref);
    ScanMeans(WorldOf(sy, nodes), ref);
  }

  lemma KnownCallCounted(sy: Symbols, cv: Conventions, nodes: seq<Node>, ref: RawRef)
    requires Built(sy.ix, nodes) && TailsPlain(sy.im) && ref.rtype == "CALLS" && ref.refFile !in cv.skipFiles
    requires !Foreign(WorldOf(sy, nodes), ref) && NarrowCall(sy, ref).1 != EXTERNAL_RECEIVER
    ensures CallCounted(WorldOf(sy, nodes), cv, ref, CallAccount(sy, cv, ref), CallEdges(sy, cv, ref))
  {
    FoundIsCalled(sy, nodes, ref);
    if NarrowCall(sy, ref).0 == [] { UnnamedIsUnknown(sy, nodes, ref); }
    CallIsKnown(sy, cv, ref);
    KnownCallJudged(sy, cv, ref, NarrowCall(sy, ref));
  }

  lemma CallIsCounted(sy: Symbols, cv: Conventions, nodes: seq<Node>, ref: RawRef)
    requires Built(sy.ix, nodes) && TailsPlain(sy.im) && ref.rtype == "CALLS" && ref.rtype !in cv.droppedTypes
    ensures CallCounted(WorldOf(sy, nodes), cv, ref, AccountFor(sy, cv, ref), AddedFor(sy, cv, ref))
  {
    CallsAreCalls();
    CallIsCall(sy, cv, ref);
    ForeignIff(sy, nodes, ref);
    if ref.refFile !in cv.skipFiles && !Foreign(WorldOf(sy, nodes), ref) {
      KnownCallCounted(sy, cv, nodes, ref);
    }
  }
}
