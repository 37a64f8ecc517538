/** References whose target is a node that no source declares: annotations, events, policies and endpoints. */
module MarkerEdges {
  import opened GraphModel
  import opened Narrowing
  import opened CoverageLedger
  import opened ReferenceEdges
  import opened EdgeTargets

  /** One edge, from the reference's place, onto the node that is synthesized for it. */
  ghost predicate OntoNew(ref: RawRef, confidence: string, strategy: string, n: Node, need: Synthesis,
                          edges: seq<Edge>) {
    && |edges| == 1 && edges[0].dst == n.id && edges[0].strategy == strategy
    && FromRef(ref, ref.rtype, confidence, edges[0])
    && need.Some? && need.value.1 == n
  }

  /** A marker node bears the name, its kind, and an id made of both. */
  ghost predicate MarkerNode(cv: Conventions, n: Node, tag: string, kind: string, prefix: string, scheme: string,
                             name: string) {
    && n.tag == tag && n.kind == kind && n.name == name && n.fqn == scheme + name
    && n.id == cv.makeId(prefix + name, kind)
  }

  ghost predicate Nothing(need: Synthesis, edges: seq<Edge>) { edges == [] && need == None }

  /** A loose match makes the edge ambiguous and says so. */
  ghost predicate LooseOr(ref: RawRef, mark: string, n: Node, need: Synthesis, edges: seq<Edge>) {
    if ref.strategyHint == "fuzzy_name" then OntoNew(ref, "AMBIGUOUS", "fuzzy_name", n, need, edges)
    else OntoNew(ref, "EXTRACTED", mark, n, need, edges)
  }

  ghost predicate AnnotationMeans(cv: Conventions, ref: RawRef, need: Synthesis, edges: seq<Edge>, v: Verdict) {
    if ref.targetName in cv.noiseAnnotations then Nothing(need, edges) && v == External
    else
      && v == Resolved && need.Some? && OntoNew(ref, "EXTRACTED", "annotation", need.value.1, need, edges)
      && MarkerNode(cv, need.value.1, "Annotation", "annotation", "@", "@", ref.targetName)
  }

  ghost predicate EventMeans(cv: Conventions, ref: RawRef, need: Synthesis, edges: seq<Edge>, v: Verdict) {
    var topic := cv.eventName(ref.targetName);
    if topic == "" then Nothing(need, edges) && v == Unresolved
    else
      && v == Resolved && need.Some? && LooseOr(ref, "event_marker", need.value.1, need, edges)
      && MarkerNode(cv, need.value.1, "Event", "event", "event:", "event://", topic)
  }

  /** A policy without a name is the one of its reference's type. */
  ghost predicate NamesPolicy(cv: Conventions, ref: RawRef, name: string) {
    if cv.policyName(ref.targetName) != "" then name == cv.policyName(ref.targetName)
    else if ref.rtype == "REQUIRES_AUTH" then name == "AUTH_REQUIRED" else name == "POLICY"
  }

  ghost predicate PolicyMeans(cv: Conventions, ref: RawRef, need: Synthesis, edges: seq<Edge>, v: Verdict) {
    v == Resolved && need.Some? && LooseOr(ref, "auth_marker", need.value.1, need, edges)
    && NamesPolicy(cv, ref, need.value.1.name)
    && MarkerNode(cv, need.value.1, "Policy", "policy", "policy:", "policy://", need.value.1.name)
  }

  /** An edge to each endpoint of the route; without any, to an endpoint made up for it, on the named host or
      unresolved. */
  ghost predicate ApiMeans(cv: Conventions, ref: RawRef, need: Synthesis, edges: seq<Edge>, v: Verdict) {
    var hits := cv.matchEndpoints(ref);
    v == Resolved
    && if hits == [] then
      if ref.recv != "" then OntoNew(ref, "EXTRACTED", "api_external", cv.endpointFor(ref), need, edges)
      else OntoNew(ref, "INFERRED", "api_unresolved", cv.endpointFor(ref), need, edges)
    else need == None && EachMatched(ref, hits, edges)
  }

  ghost predicate EachMatched(ref: RawRef, hits: seq<Node>, edges: seq<Edge>) {
    && |edges| == |hits|
    && forall i :: 0 <= i < |hits| ==>
         edges[i].dst == hits[i].id && edges[i].strategy == "api_match"
           && FromRef(ref, ref.rtype, "EXTRACTED", edges[i])
  }

  ghost predicate MarkerMeans(cv: Conventions, ref: RawRef, need: Synthesis, edges: seq<Edge>, v: Verdict) {
    if ref.rtype == "ANNOTATED_WITH" then AnnotationMeans(cv, ref, need, edges, v)
    else if ref.rtype == "EMITS_EVENT" || ref.rtype == "CONSUMES_EVENT" then EventMeans(cv, ref, need, edges, v)
    else if ref.rtype == "REQUIRES_AUTH" || ref.rtype == "ENFORCES_POLICY" then PolicyMeans(cv, ref, need, edges, v)
    else ApiMeans(cv, ref, need, edges, v)
  }

  lemma MarkerKinds(rtype: string)
    requires rtype in OTHER_WAYS && rtype != "CALLS"
    ensures KindOf(rtype) == if rtype == "ANNOTATED_WITH" then Annotates
      else if rtype == "EMITS_EVENT" || rtype == "CONSUMES_EVENT" then Events
      else if rtype == "REQUIRES_AUTH" || rtype == "ENFORCES_POLICY" then Policies else CallsApi
  {
  }

  lemma AnnotationsMean(sy: Symbols, cv: Conventions, ref: RawRef)
    ensures AnnotationMeans(cv, ref, AnnotationNeeded(cv, ref), AnnotationEdges(cv, ref),
              PlainVerdict(Annotates, sy, cv, ref))
  {
  }

  lemma EventsMean(sy: Symbols, cv: Conventions, ref: RawRef)
    ensures EventMeans(cv, ref, EventNeeded(cv, ref), EventEdges(cv, ref), PlainVerdict(Events, sy, cv, ref))
  {
  }

  lemma PoliciesMean(sy: Symbols, cv: Conventions, ref: RawRef)
    ensures PolicyMeans(cv, ref, NeededOfKind(Policies, sy, cv, ref), EdgesOfKind(Policies, sy, cv, ref),
              PlainVerdict(Policies, sy, cv, ref))
  {
  }

  lemma ApisMean(sy: Symbols, cv: Conventions, ref: RawRef)
    ensures ApiMeans(cv, ref, EndpointNeeded(cv, ref), ApiEdges(cv, ref), PlainVerdict(CallsApi, sy, cv, ref))
  {
  }

  /** A marker's edges land on the node it names, which it brings along, and it is resolved unless it names nothing. */
  lemma MarkersLead(sy: Symbols, cv: Conventions, ref: RawRef)
    requires ref.rtype in OTHER_WAYS && ref.rtype != "CALLS" && ref.rtype !in cv.droppedTypes
    ensures AccountFor(sy, cv, ref).Plain?
    ensures MarkerMeans(cv, ref, NeedFor(sy, cv, ref), AddedFor(sy, cv, ref), AccountFor(sy, cv, ref).b)
  {
    MarkerKinds(ref.rtype);
    AnnotationsMean(sy, cv, ref);
    EventsMean(sy, cv, ref);
    PoliciesMean(sy, cv, ref);
    ApisMean(sy, cv, ref);
  }
}
