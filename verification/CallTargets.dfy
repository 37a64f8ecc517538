/** What the edges of a call mean, said of the node list alone. */
module CallTargets {
  import opened GraphModel
  import opened LookupIndices
  import opened DottedNames
  import opened Narrowing
  import opened Dispatch
  import opened ReferenceEdges
  import opened Visibility
  import opened EdgeTargets
  import opened CallMeaning

  /** The receiver's declared type is no class of the repository. */
  ghost predicate Foreign(w: World, ref: RawRef) { ref.recvType != "" && !ClassExists(w.nodes, ref.recvType) }

  // ---- only a foreign receiver is reported as one -------------------------------

  predicate Domestic(strategy: string) { strategy != "" && strategy[0] != 'e' }

  lemma ArityDomestic(ref: RawRef, hits: seq<Node>, base: string)
    requires Domestic(base)
    ensures Domestic(ApplyArity(ref, hits, base).1)
  {
  }

  ghost predicate AllDomestic(tiers: seq<Hits>) { forall i :: 0 <= i < |tiers| ==> Domestic(tiers[i].1) }

  lemma {:induction false} FirstTierDomestic(ref: RawRef, tiers: seq<Hits>)
    requires AllDomestic(tiers)
    ensures Domestic(FirstTier(ref, tiers).1)
  {
    if tiers != [] {
      ArityDomestic(ref, tiers[0].0, tiers[0].1);
      FirstTierDomestic(ref, tiers[1..]);
    }
  }

  lemma ScopeDomestic(sc: Scopes, pool: seq<Node>, ref: RawRef)
    ensures AllDomestic(ScopeTiers(sc, pool, ref))
  {
  }

  lemma ImportDomestic(im: Imports, pool: seq<Node>, file: string)
    ensures AllDomestic(ImportTiers(im, pool, file))
  {
  }

  lemma ReceiverDomestic(w: World, ref: RawRef)
    ensures AllDomestic(ReceiverTiersByScan(w, ref))
  {
    var t := ReceiverTiersByScan(w, ref);
    assert Domestic("receiver_type_hint") && Domestic("receiver_type_hint_inherited") && Domestic("receiver_type")
      && Domestic("receiver_type_inherited");
    assert |t| == 6 && t[0].1 == "receiver_type_hint" && t[1].1 == "receiver_type_hint_inherited"
      && t[2].1 == t[4].1 == "receiver_type"
      && t[3].1 == t[5].1 == "receiver_type_inherited";
  }

  lemma DomesticConcat(a: seq<Hits>, b: seq<Hits>)
    requires AllDomestic(a) && AllDomestic(b)
    ensures AllDomestic(a + b)
  {
  }

  lemma TiersDomestic(w: World, ref: RawRef, pool: seq<Node>)
    ensures AllDomestic(ScopeTiers(w.sc, pool, ref) + (ImportTiers(w.im, pool, FileOf(w.sc, ref.src))
              + (ReceiverTiersByScan(w, ref) + [(pool, "name")])))
  {
    var imports, receivers, last := ImportTiers(w.im, pool, FileOf(w.sc, ref.src)), ReceiverTiersByScan(w, ref),
      [(pool, "name")];
    ScopeDomestic(w.sc, pool, ref);
    ImportDomestic(w.im, pool, FileOf(w.sc, ref.src));
    ReceiverDomestic(w, ref);
    DomesticConcat(receivers, last);
    DomesticConcat(imports, receivers + last);
    DomesticConcat(ScopeTiers(w.sc, pool, ref), imports + (receivers + last));
  }

  lemma ForeignIff(sy: Symbols, nodes: seq<Node>, ref: RawRef)
    requires Built(sy.ix, nodes)
    ensures NarrowCall(sy, ref).1 == EXTERNAL_RECEIVER <==> Foreign(WorldOf(sy, nodes), ref)
  {
    var w, pool := WorldOf(sy, nodes), PoolByScan(nodes, ref.targetName);
    NarrowCallRefinesScan(sy, nodes, ref);
    TiersDomestic(w, ref, pool);
    FirstTierDomestic(ref, ScopeTiers(w.sc, pool, ref) + (ImportTiers(w.im, pool, FileOf(w.sc, ref.src))
      + (ReceiverTiersByScan(w, ref) + [(pool, "name")])));
    FirstTierDomestic(ref, []);
  }

  // ---- the fallback ----------------------------------------------------------------

  /** Callables of a dotted name's last segment, functions before classes. */
  ghost predicate FallbackTarget(w: World, name: string, n: Node) {
    exists t :: IsTail(name, t) && t != "" && t != name && CallableNamed(w.nodes, t, n)
      && (n.tag == "Function" || forall m :: CallableNamed(w.nodes, t, m) ==> m.tag != "Function")
  }

  lemma FallbackAreTargets(sy: Symbols, nodes: seq<Node>, name: string)
    requires Built(sy.ix, nodes)
    ensures forall n :: n in FallbackCandidates(sy, name) <==> FallbackTarget(WorldOf(sy, nodes), name, n)
  {
    var tail := TailName(name);
    var named := Bucket(sy.ix.byName, tail);
    forall n ensures n in named <==> CallableNamed(nodes, tail, n) { NamedAreCallable(sy, nodes, tail, n); }
    Preferred(named, IsFunction());
    forall t | IsTail(name, t) ensures t == tail { TailIff(name, t); }
  }

  // ---- what narrowing found ------------------------------------------------------------

  /** Narrowing finds something to call. */
  ghost predicate Called(w: World, ref: RawRef) { exists n :: CallHit(w, ref, n) }

  ghost function Hit(w: World, ref: RawRef): Node -> bool { (n: Node) => CallHit(w, ref, n) }

  /** The candidates share only the bare name with a call on another object. */
  ghost predicate ByNameOnAnother(w: World, ref: RawRef) { Strongest(w, ref, 11) && ref.recv != "" && !Self(ref) }

  lemma OnlyLastIsName(k: int)
    requires 0 <= k < 12
    ensures Label(k) != "" && (Label(k)[0] == 'n' <==> k == 11) && (NameTier(Label(k)) <==> k == 11)
  {
    NameTierStarts(Label(k));
  }

  lemma LastTierIsName(w: World, ref: RawRef, k: int)
    requires 0 <= k < 12
    ensures NameTier(Said(w, ref, k)) <==> k == 11
  {
    OnlyLastIsName(k);
    NameTierStarts(Said(w, ref, k));
    assert Said(w, ref, k)[0] == Label(k)[0];
    assert Label(k) <= Said(w, ref, k);
  }

  /** The scanned candidates and their strategy, in words. */
  lemma ScanMeans(w: World, ref: RawRef)
    requires TailsPlain(w.im) && !Foreign(w, ref)
    ensures var hits := NarrowCallByScan(w, ref);
      && (hits.0 != [] <==> Called(w, ref)) && (forall n :: n in hits.0 <==> CallHit(w, ref, n))
      && (forall k :: Strongest(w, ref, k) ==> hits.1 == Said(w, ref, k))
      && (hits.0 != [] ==> (NameTier(hits.1) <==> Strongest(w, ref, 11)))
  {
    var hits := NarrowCallByScan(w, ref);
    NarrowCallMeans(w, ref);
    if hits.0 != [] {
      assert CallHit(w, ref, hits.0[0]);
      var k :| Strongest(w, ref, k) && InTier(w, ref, k, hits.0[0]) && ArityFits(w, ref, k, hits.0[0]);
      LastTierIsName(w, ref, k);
      if Strongest(w, ref, 11) { OneStrongest(w, ref, 11, k); }
    }
  }

  lemma PoolIsConsidered(nodes: seq<Node>, name: string, p: Node -> bool)
    requires forall n :: n in nodes ==> (p(n) <==> Considered(nodes, name, n))
    ensures PoolByScan(nodes, name) == Select(nodes, p)
  {
    var fns := Select(nodes, NamedLike({"Function"}, name));
    SelectEmpty(nodes, NamedLike({"Function"}, name));
    SelectAgree(nodes, if fns != [] then NamedLike({"Function"}, name) else NamedLike(CALLABLES, name), p);
  }

  /** With nothing but the name to go by, the candidates are filtered from the node list. */
  lemma BareHits(w: World, ref: RawRef)
    requires TailsPlain(w.im) && !Foreign(w, ref) && Strongest(w, ref, 11)
    ensures NarrowCallByScan(w, ref).0 == Select(w.nodes, Hit(w, ref))
  {
    var p, pool := (n: Node) => Considered(w.nodes, ref.targetName, n), PoolByScan(w.nodes, ref.targetName);
    PoolIsConsidered(w.nodes, ref.targetName, p);
    ByNameIsPool(w, ref);
    ScanMeans(w, ref);
    if NarrowCallByScan(w, ref).0 == pool {
      SelectAgree(w.nodes, p, Hit(w, ref));
    } else {
      SelectTwice(w.nodes, p, WithArity(ref.callArity), Hit(w, ref));
    }
  }

  // ---- the edges -----------------------------------------------------------------------

  /** More candidates than the cap share only the bare name with the call. */
  ghost predicate BareNameCut(w: World, cv: Conventions, ref: RawRef) {
    var several := |Select(w.nodes, Hit(w, ref))|;
    Strongest(w, ref, 11) && 1 < several && 0 < cv.cap < several
  }

  lemma CutIff(w: World, cv: Conventions, ref: RawRef)
    requires TailsPlain(w.im) && !Foreign(w, ref)
    ensures var hits := NarrowCallByScan(w, ref);
      BareNameCut(w, cv, ref) <==> 1 < |hits.0| && 0 < cv.cap < |hits.0| && NameTier(hits.1)
  {
    ScanMeans(w, ref);
    if Strongest(w, ref, 11) { BareHits(w, ref); }
  }

  /** No candidate, and no fallback either. */
  ghost predicate NothingToCall(w: World, ref: RawRef) {
    && (forall n :: !CallableNamed(w.nodes, ref.targetName, n))
    && (forall n :: !FallbackTarget(w, ref.targetName, n))
  }

  /** When a call leaves no edge. */
  ghost predicate LeavesNone(w: World, cv: Conventions, ref: RawRef) {
    || ref.refFile in cv.skipFiles
    || (Foreign(w, ref) && !cv.isClassified(ref))
    || (!Foreign(w, ref) && (NothingToCall(w, ref) || BareNameCut(w, cv, ref)))
  }

  /** What a call with a receiver of the repository may reach: the candidates most strongly related to it whose arity
      fits, or else the fallback. */
  ghost function CallTarget(w: World, ref: RawRef): Node -> bool {
    (n: Node) => if Called(w, ref) then CallHit(w, ref, n) else FallbackTarget(w, ref.targetName, n)
  }

  /** Weak edges stand for a fallback, and for candidates that share only the bare name with a call on another
      object. */
  ghost function CallType(w: World, ref: RawRef): string {
    if Called(w, ref) && !ByNameOnAnother(w, ref) then "CALLS" else "REFERENCES"
  }

  /** The edges say how their target was found. */
  ghost predicate SaysHow(w: World, ref: RawRef, edges: seq<Edge>) {
    forall e, k :: e in edges && Strongest(w, ref, k) ==>
      e.strategy == if ByNameOnAnother(w, ref) then Said(w, ref, k) + "+unknown_recv" else Said(w, ref, k)
  }

  ghost predicate SaysFallback(w: World, ref: RawRef, edges: seq<Edge>) {
    !Called(w, ref) ==> forall e :: e in edges ==> e.strategy == "none+fallback_tail"
  }

  /** A call on a foreign receiver leaves one edge to the API, if that is of interest. */
  ghost predicate LeadsOut(cv: Conventions, ref: RawRef, edges: seq<Edge>) {
    && |edges| == (if cv.isClassified(ref) then 1 else 0)
    && (forall e :: e in edges ==> FromRef(ref, "CALLS_EXTERNAL", "EXTRACTED", e))
    && forall e :: e in edges ==> e.dst == cv.externalFor(ref).id && e.strategy == "external_typed"
  }

  lemma FanOutSays(ref: RawRef, hits: seq<Node>, confidence: string, strategy: string, etype: string)
    ensures forall e :: e in FanOut(ref, hits, confidence, strategy, etype) ==> e.strategy == strategy
  {
  }

  /** A call no candidate was found for. */
  lemma MissedCallMeans(sy: Symbols, nodes: seq<Node>, ref: RawRef)
    requires Built(sy.ix, nodes)
    ensures var edges := WeakEdges(ref, FallbackCandidates(sy, ref.targetName));
      && LeadTo(ref, WEAK, INFERRED, (n: Node) => FallbackTarget(WorldOf(sy, nodes), ref.targetName, n), false, edges)
      && forall e :: e in edges ==> e.strategy == "none+fallback_tail"
  {
    var target := (n: Node) => FallbackTarget(WorldOf(sy, nodes), ref.targetName, n);
    var found := FallbackCandidates(sy, ref.targetName);
    FallbackAreTargets(sy, nodes, ref.targetName);
    if found != [] {
      FanOutLeads(ref, target, found, if |found| == 1 then INFERRED else AMBIGUOUS, NO_MATCH, WEAK, INFERRED);
      FanOutSays(ref, found, if |found| == 1 then INFERRED else AMBIGUOUS, NO_MATCH, WEAK);
    } else {
      forall n ensures !target(n) { assert n !in found; }
    }
  }

  /** A call with candidates, drawn or demoted. */
  lemma FoundCallMeans(cap: nat, ref: RawRef, hits: Hits, weak: bool)
    requires hits.0 != [] && weak == SharesOnlyName(ref, hits.1)
    ensures var edges := if weak then DemotedEdges(cap, ref, hits.0, hits.1)
      else Capped(cap, ref, hits.0, INFERRED, hits.1);
      && LeadTo(ref, if weak then WEAK else ref.rtype, INFERRED, (n: Node) => n in hits.0,
           1 < |hits.0| && 0 < cap < |hits.0| && NameTier(hits.1), edges)
      && forall e :: e in edges ==> e.strategy == if weak then hits.1 + "+unknown_recv" else hits.1
  {
    var target := (n: Node) => n in hits.0;
    if weak {
      var confidence := if |hits.0| == 1 then INFERRED else AMBIGUOUS;
      if !(1 < |hits.0| && 0 < cap < |hits.0|) {
        FanOutLeads(ref, target, hits.0, confidence, hits.1 + "+unknown_recv", WEAK, INFERRED);
        FanOutSays(ref, hits.0, confidence, hits.1 + "+unknown_recv", WEAK);
      }
    } else {
      CappedEach(cap, ref, target, hits.0, INFERRED, hits.1, INFERRED);
      FanOutSays(ref, hits.0, if |hits.0| == 1 then INFERRED else AMBIGUOUS, hits.1, ref.rtype);
    }
  }

  lemma ExternalLeadsOut(cv: Conventions, ref: RawRef)
    ensures LeadsOut(cv, ref, ExternalEdges(cv, ref))
  {
  }

  /** A call leads to exactly its targets, and each edge says how its target was found. */
  ghost predicate CallLeads(w: World, cv: Conventions, ref: RawRef, edges: seq<Edge>) {
    && LeadTo(ref, CallType(w, ref), "INFERRED", CallTarget(w, ref), BareNameCut(w, cv, ref), edges)
    && SaysHow(w, ref, edges) && SaysFallback(w, ref, edges)
  }

  lemma UncalledLeads(sy: Symbols, cv: Conventions, nodes: seq<Node>, ref: RawRef)
    requires Built(sy.ix, nodes) && !Called(WorldOf(sy, nodes), ref)
    ensures CallLeads(WorldOf(sy, nodes), cv, ref, WeakEdges(ref, FallbackCandidates(sy, ref.targetName)))
  {
    var w := WorldOf(sy, nodes);
    var edges := WeakEdges(ref, FallbackCandidates(sy, ref.targetName));
    MissedCallMeans(sy, nodes, ref);
    forall k ensures !Strongest(w, ref, k) { StrongestIsCalled(w, ref, k); }
    LeadsAlike(ref, WEAK, INFERRED, (n: Node) => FallbackTarget(w, ref.targetName, n), CallTarget(w, ref), false,
               edges);
  }

  /** Some candidate of the strongest relation fits. */
  lemma StrongestIsCalled(w: World, ref: RawRef, k: int)
    ensures Strongest(w, ref, k) ==> Called(w, ref)
  {
    if Strongest(w, ref, k) {
      var n :| InTier(w, ref, k, n);
      if m :| InTier(w, ref, k, m) && m.paramCount == ref.callArity {
        assert CallHit(w, ref, m);
      } else {
        assert CallHit(w, ref, n);
      }
    }
  }

  lemma CalledLeads(sy: Symbols, cv: Conventions, w: World, ref: RawRef, hits: Hits)
    requires ref.rtype == "CALLS" && TailsPlain(w.im) && !Foreign(w, ref) && Called(w, ref)
    requires hits == NarrowCallByScan(w, ref)
    ensures CallLeads(w, cv, ref, KnownCallEdges(sy, cv, ref, hits.0, hits.1))
  {
    var edges := KnownCallEdges(sy, cv, ref, hits.0, hits.1);
    ScanMeans(w, ref);
    CutIff(w, cv, ref);
    FoundCallMeans(cv.cap, ref, hits, ByNameOnAnother(w, ref));
    LeadsAlike(ref, CallType(w, ref), INFERRED, (n: Node) => n in hits.0, CallTarget(w, ref), BareNameCut(w, cv, ref),
               edges);
  }

  /** A call on a foreign receiver leaves its external edge, if its API is of interest; any other call whose file is not
      left to another resolver leads to exactly the most strongly related candidates whose arity fits, or the
      fallback. */
  lemma CallEdgesLeadRight(sy: Symbols, cv: Conventions, nodes: seq<Node>, ref: RawRef)
    requires Built(sy.ix, nodes) && TailsPlain(sy.im) && ref.rtype == "CALLS" && ref.refFile !in cv.skipFiles
    ensures var w, edges := WorldOf(sy, nodes), CallEdges(sy, cv, ref);
      if Foreign(w, ref) then LeadsOut(cv, ref, edges) else CallLeads(w, cv, ref, edges)
  {
    var w := WorldOf(sy, nodes);
    ForeignIff(sy, nodes, ref);
    NarrowCallRefinesScan(sy, nodes, ref);
    if !Foreign(w, ref) {
      ScanMeans(w, ref);
      if Called(w, ref) {
        CalledLeads(sy, cv, w, ref, NarrowCallByScan(w, ref));
      } else {
        UncalledLeads(sy, cv, nodes, ref);
      }
    }
  }

  lemma KnownCallEmptyIff(sy: Symbols, cv: Conventions, ref: RawRef)
    requires NarrowCall(sy, ref).0 != [] && NarrowCall(sy, ref).1 != EXTERNAL_RECEIVER && ref.refFile !in cv.skipFiles
    ensures var hits := NarrowCall(sy, ref);
      CallEdges(sy, cv, ref) == [] <==> 1 < |hits.0| && 0 < cv.cap < |hits.0| && NameTier(hits.1)
  {
  }

  lemma NoCandidateIff(nodes: seq<Node>, name: string)
    ensures (exists n :: CandidateFor(nodes, name, n)) <==> exists n :: CallableNamed(nodes, name, n)
  {
    if n :| CandidateFor(nodes, name, n) { assert CallableNamed(nodes, name, n); }
    if n :| CallableNamed(nodes, name, n) { assert CandidateFor(nodes, name, n); }
  }

  lemma NoFallbackIff(sy: Symbols, nodes: seq<Node>, name: string)
    requires Built(sy.ix, nodes)
    ensures FallbackCandidates(sy, name) == [] <==> forall n :: !FallbackTarget(WorldOf(sy, nodes), name, n)
  {
    var found := FallbackCandidates(sy, name);
    FallbackAreTargets(sy, nodes, name);
    if found != [] { assert found[0] in found; }
  }

  lemma NothingIff(sy: Symbols, nodes: seq<Node>, ref: RawRef)
    requires Built(sy.ix, nodes) && !Foreign(WorldOf(sy, nodes), ref)
    ensures NothingToCall(WorldOf(sy, nodes), ref) <==>
      NarrowCall(sy, ref).0 == [] && FallbackCandidates(sy, ref.targetName) == []
  {
    NarrowCallIsSound(sy, nodes, ref);
    NoCandidateIff(nodes, ref.targetName);
    NoFallbackIff(sy, nodes, ref.targetName);
  }

  /** A call leaves no edge exactly when its file is left to another resolver, its foreign receiver is of no interest,
      nothing of its name can be called, or the cap cuts the bare name. */
  lemma CallLeavesNoneIff(sy: Symbols, cv: Conventions, nodes: seq<Node>, ref: RawRef)
    requires Built(sy.ix, nodes) && TailsPlain(sy.im)
    ensures CallEdges(sy, cv, ref) == [] <==> LeavesNone(WorldOf(sy, nodes), cv, ref)
  {
    var w := WorldOf(sy, nodes);
    ForeignIff(sy, nodes, ref);
    if ref.refFile !in cv.skipFiles && !Foreign(w, ref) {
      NarrowCallRefinesScan(sy, nodes, ref);
      NothingIff(sy, nodes, ref);
      CutIff(w, cv, ref);
      if NarrowCall(sy, ref).0 != [] {
        KnownCallEmptyIff(sy, cv, ref);
      } else {
        assert CallEdges(sy, cv, ref) == WeakEdges(ref, FallbackCandidates(sy, ref.targetName));
      }
    }
  }
}
