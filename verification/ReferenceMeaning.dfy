/** What any reference comes to, by its type: its edges and how it is counted, with no index in the statement. */
module ReferenceMeaning {
  import opened GraphModel
  import opened LookupIndices
  import opened Narrowing
  import opened CoverageLedger
  import opened ReferenceEdges
  import opened Visibility
  import opened EdgeTargets
  import opened CallTargets
  import opened MarkerEdges
  import opened Verdicts

  ghost predicate CallMeans(w: World, cv: Conventions, ref: RawRef, a: Account, edges: seq<Edge>) {
    && CallCounted(w, cv, ref, a, edges)
    && if ref.refFile in cv.skipFiles then edges == []
       else if Foreign(w, ref) then LeadsOut(cv, ref, edges) else CallLeads(w, cv, ref, edges)
  }

  /** Only a foreign receiver of interest needs a node. */
  ghost predicate CallNeeds(w: World, cv: Conventions, ref: RawRef, need: Synthesis) {
    if ref.refFile !in cv.skipFiles && Foreign(w, ref) && cv.isClassified(ref) then
      need.Some? && need.value.1 == cv.externalFor(ref)
    else need == None
  }

  ghost predicate LookupMeans(w: World, cv: Conventions, ref: RawRef, a: Account, edges: seq<Edge>) {
    Leads(w, cv, ref, edges) && JudgedAs(a, edges, NamedHere(w, cv, ref))
  }

  ghost predicate Marks(cv: Conventions, ref: RawRef, need: Synthesis, a: Account, edges: seq<Edge>) {
    a.Plain? && MarkerMeans(cv, ref, need, edges, a.b)
  }

  /** What a reference adds, what node it needs, and how it is counted. */
  ghost predicate Means(w: World, cv: Conventions, ref: RawRef, need: Synthesis, a: Account, edges: seq<Edge>) {
    if ref.rtype in cv.droppedTypes then edges == [] && need == None && a == Skipped
    else if ref.rtype == "CALLS" then CallNeeds(w, cv, ref, need) && CallMeans(w, cv, ref, a, edges)
    else if ref.rtype in OTHER_WAYS then Marks(cv, ref, need, a, edges)
    else need == None && LookupMeans(w, cv, ref, a, edges)
  }

  lemma LookupNeedsNone(sy: Symbols, cv: Conventions, ref: RawRef)
    requires ref.rtype !in OTHER_WAYS && ref.rtype !in cv.droppedTypes
    ensures NeedFor(sy, cv, ref) == None
  {
    KindsAgree(ref.rtype);
  }

  lemma DroppedMeans(sy: Symbols, cv: Conventions, ref: RawRef)
    requires ref.rtype in cv.droppedTypes
    ensures AddedFor(sy, cv, ref) == [] && NeedFor(sy, cv, ref) == None && AccountFor(sy, cv, ref) == Skipped
  {
  }

  lemma CallsNeed(sy: Symbols, cv: Conventions, nodes: seq<Node>, ref: RawRef)
    requires Built(sy.ix, nodes) && ref.rtype == "CALLS" && ref.rtype !in cv.droppedTypes
    ensures CallNeeds(WorldOf(sy, nodes), cv, ref, NeedFor(sy, cv, ref))
  {
    CallsAreCalls();
    ForeignIff(sy, nodes, ref);
    assert NeedFor(sy, cv, ref) == ExternalNeeded(sy, cv, ref);
  }

  lemma CallIsMeant(sy: Symbols, cv: Conventions, nodes: seq<Node>, ref: RawRef)
    requires Built(sy.ix, nodes) && TailsPlain(sy.im) && ref.rtype == "CALLS" && ref.rtype !in cv.droppedTypes
    ensures CallMeans(WorldOf(sy, nodes), cv, ref, AccountFor(sy, cv, ref), AddedFor(sy, cv, ref))
  {
    CallsAreCalls();
    CallIsCall(sy, cv, ref);
    CallIsCounted(sy, cv, nodes, ref);
    if ref.refFile !in cv.skipFiles { CallEdgesLeadRight(sy, cv, nodes, ref); }
  }

  lemma LookupIsMeant(sy: Symbols, cv: Conventions, nodes: seq<Node>, ref: RawRef)
    requires Built(sy.ix, nodes) && FqnTable(cv.classByFqn, nodes) && TailsPlain(sy.im)
    requires ref.rtype !in OTHER_WAYS && ref.rtype !in cv.droppedTypes
    ensures LookupMeans(WorldOf(sy, nodes), cv, ref, AccountFor(sy, cv, ref), AddedFor(sy, cv, ref))
  {
    EdgesMeanTargets(sy, cv, nodes, ref);
    LookupJudged(sy, cv, nodes, ref);
  }

  /** Every reference means what its type says. */
  lemma ReferencesMean(sy: Symbols, cv: Conventions, nodes: seq<Node>, ref: RawRef)
    requires Built(sy.ix, nodes) && FqnTable(cv.classByFqn, nodes) && TailsPlain(sy.im)
    ensures Means(WorldOf(sy, nodes), cv, ref, NeedFor(sy, cv, ref), AccountFor(sy, cv, ref), AddedFor(sy, cv, ref))
  {
    if ref.rtype in cv.droppedTypes {
      DroppedMeans(sy, cv, ref);
    } else if ref.rtype == "CALLS" {
      CallsNeed(sy, cv, nodes, ref);
      CallIsMeant(sy, cv, nodes, ref);
    } else if ref.rtype in OTHER_WAYS {
      MarkersLead(sy, cv, ref);
    } else {
      LookupNeedsNone(sy, cv, ref);
      LookupIsMeant(sy, cv, nodes, ref);
    }
  }

  ghost predicate AllMean(sy: Symbols, cv: Conventions, nodes: seq<Node>) {
    forall ref ::
      Means(WorldOf(sy, nodes), cv, ref, NeedFor(sy, cv, ref), AccountFor(sy, cv, ref), AddedFor(sy, cv, ref))
  }

  lemma EachMeans(sy: Symbols, cv: Conventions, nodes: seq<Node>)
    requires Built(sy.ix, nodes) && FqnTable(cv.classByFqn, nodes) && TailsPlain(sy.im)
    ensures AllMean(sy, cv, nodes)
  {
    forall ref
      ensures Means(WorldOf(sy, nodes), cv, ref, NeedFor(sy, cv, ref), AccountFor(sy, cv, ref), AddedFor(sy, cv, ref))
    {
      ReferencesMean(sy, cv, nodes, ref);
    }
  }
}
