/** Resolving references to edges, one at a time: appending, node synthesis and coverage. */
module ResolveRefs {
  import opened GraphModel
  import opened LookupIndices
  import opened DottedNames
  import opened Containment
  import opened Narrowing
  import opened CoverageLedger
  import opened ReferenceEdges

  /** Every registered node has been handed out. */
  ghost predicate AllHandedOut(cv: Conventions, registered: set<SynthKey>, nodes: seq<Node>) {
    forall key :: key in registered ==> IdOfKey(cv, key) in IdsOf(nodes)
  }

  lemma HandedOutNext(cv: Conventions, registered: set<SynthKey>, nodes: seq<Node>, key: SynthKey, node: Node)
    requires AllHandedOut(cv, registered, nodes) && IdOfKey(cv, key) == node.id
    ensures AllHandedOut(cv, registered + {key}, nodes + NewNodes(registered, Some((key, node))))
  {
    IdsConcat(nodes, NewNodes(registered, Some((key, node))));
    assert node in [node];
  }

  lemma FanOutNext(ref: RawRef, wanted: seq<Node>, i: nat, confidence: string, strategy: string, etype: string)
    requires i < |wanted|
    ensures FanOut(ref, wanted[..i + 1], confidence, strategy, etype)
         == FanOut(ref, wanted[..i], confidence, strategy, etype)
           + [MakeEdge(ref, wanted[i].id, confidence, strategy, etype)]
  {
  }

  /** What is interned, by kind. */
  datatype Tables = Tables(annotations: map<string, string>, events: map<string, string>, policies: map<string, string>,
                           endpoints: set<string>, externals: set<string>)

  ghost predicate AnnotationsFit(cv: Conventions, ids: map<string, string>, registered: set<SynthKey>) {
    forall k :: (k in ids <==> AnnotationKey(k) in registered) && (k in ids ==> ids[k] == AnnotationNode(cv, k).id)
  }

  ghost predicate EventsFit(cv: Conventions, ids: map<string, string>, registered: set<SynthKey>) {
    forall k :: (k in ids <==> EventKey(k) in registered) && (k in ids ==> ids[k] == EventNode(cv, k).id)
  }

  ghost predicate PoliciesFit(cv: Conventions, ids: map<string, string>, registered: set<SynthKey>) {
    forall k :: (k in ids <==> PolicyKey(k) in registered) && (k in ids ==> ids[k] == PolicyNode(cv, k).id)
  }

  ghost predicate EndpointsFit(ids: set<string>, registered: set<SynthKey>) {
    forall k :: k in ids <==> EndpointKey(k) in registered
  }

  ghost predicate ExternalsFit(ids: set<string>, registered: set<SynthKey>) {
    forall k :: k in ids <==> ExternalKey(k) in registered
  }

  /** The tables hold what is registered, under the ids the nodes bear. */
  ghost predicate TablesFit(cv: Conventions, t: Tables, registered: set<SynthKey>) {
    && AnnotationsFit(cv, t.annotations, registered) && EventsFit(cv, t.events, registered)
    && PoliciesFit(cv, t.policies, registered) && EndpointsFit(t.endpoints, registered)
    && ExternalsFit(t.externals, registered)
  }

  /** The tables with one more key. */
  function WithKey(cv: Conventions, t: Tables, key: SynthKey): Tables {
    match key
    case AnnotationKey(k) => t.(annotations := t.annotations[k := AnnotationNode(cv, k).id])
    case EventKey(k) => t.(events := t.events[k := EventNode(cv, k).id])
    case PolicyKey(k) => t.(policies := t.policies[k := PolicyNode(cv, k).id])
    case EndpointKey(k) => t.(endpoints := t.endpoints + {k})
    case ExternalKey(k) => t.(externals := t.externals + {k})
  }

  lemma KeyFits(cv: Conventions, t: Tables, registered: set<SynthKey>, key: SynthKey)
    requires TablesFit(cv, t, registered)
    ensures TablesFit(cv, WithKey(cv, t, key), registered + {key})
  {
  }

  class Resolver {
    const sy: Symbols
    const cv: Conventions
    var outEdges: seq<Edge>
    var extraNodes: seq<Node>
    var annotationIds: map<string, string>
    var eventIds: map<string, string>
    var policyIds: map<string, string>
    var endpointIds: set<string>
    var externalIds: set<string>
    var coverage: Ledger
    ghost var registered: set<SynthKey>

    ghost function Interned(): Tables
      reads this`annotationIds, this`eventIds, this`policyIds, this`endpointIds, this`externalIds
    {
      Tables(annotationIds, eventIds, policyIds, endpointIds, externalIds)
    }

    /** The five tables hold what is registered, and all of it has been handed out. */
    ghost predicate Valid()
      reads this`annotationIds, this`eventIds, this`policyIds, this`endpointIds, this`externalIds, this`registered,
            this`extraNodes
    {
      AllHandedOut(cv, registered, extraNodes) && TablesFit(cv, Interned(), registered)
    }

    /** One reference appends its edges, and its synthesized node on first use. */
    twostate predicate Takes(edges: seq<Edge>, need: Synthesis)
      reads this
    {
      && outEdges == old(outEdges) + edges
      && extraNodes == old(extraNodes) + NewNodes(old(registered), need)
      && registered == old(registered) + KeysOf(need)
    }

    constructor (sy: Symbols, cv: Conventions)
      ensures Valid() && this.sy == sy && this.cv == cv
      ensures outEdges == [] && extraNodes == [] && coverage == map[] && registered == {}
    {
      this.sy, this.cv := sy, cv;
      outEdges, extraNodes, coverage := [], [], map[];
      annotationIds, eventIds, policyIds, endpointIds, externalIds, registered := map[], map[], map[], {}, {}, {};
    }

    method Append(ref: RawRef, wanted: seq<Node>, confidence: string, strategy: string, etype: string)
      modifies this`outEdges
      ensures outEdges == old(outEdges) + FanOut(ref, wanted, confidence, strategy, etype)
    {
      for i := 0 to |wanted|
        invariant outEdges == old(outEdges) + FanOut(ref, wanted[..i], confidence, strategy, etype)
      {
        FanOutNext(ref, wanted, i, confidence, strategy, etype);
        outEdges := outEdges + [MakeEdge(ref, wanted[i].id, confidence, strategy, etype)];
      }
      assert wanted[..|wanted|] == wanted;
    }

    method Emit(ref: RawRef, wanted: seq<Node>, confidence: string, knownInRepo: bool, strategy: string)
      returns (b: Verdict)
      modifies this`outEdges, this`coverage
      ensures b == VerdictOf(cv.cap, wanted, knownInRepo, strategy)
      ensures coverage == Count(old(coverage), ref.rtype, b)
      ensures outEdges == old(outEdges) + Capped(cv.cap, ref, wanted, confidence, strategy)
    {
      if |wanted| == 1 {
        Append(ref, wanted, confidence, strategy, ref.rtype);
        b := Resolved;
      } else if |wanted| > 1 {
        if cv.cap != 0 && NameTier(strategy) && |wanted| > cv.cap {
          b := Unresolved;
        } else {
          Append(ref, wanted, AMBIGUOUS, strategy, ref.rtype);
          b := Ambiguous;
        }
      } else if knownInRepo {
        b := Unresolved;
      } else {
        b := External;
      }
      coverage := Count(coverage, ref.rtype, b);
    }

    /** The id registered under `key`, with its node synthesized on first use. */
    method Intern(table: map<string, string>, key: string, node: Node) returns (table': map<string, string>, id: string)
      requires key in table ==> table[key] == node.id
      modifies this`extraNodes
      ensures id == node.id && table' == table[key := node.id]
      ensures extraNodes == old(extraNodes) + if key in table then [] else [node]
    {
      if key in table {
        return table, table[key];
      }
      extraNodes := extraNodes + [node];
      table', id := table[key := node.id], node.id;
    }

    /** The same for nodes registered by id alone. */
    method Register(table: set<string>, node: Node) returns (table': set<string>)
      modifies this`extraNodes
      ensures table' == table + {node.id}
      ensures extraNodes == old(extraNodes) + if node.id in table then [] else [node]
    {
      table' := table + {node.id};
      if node.id !in table {
        extraNodes := extraNodes + [node];
      }
    }

    method AddAnnotation(name: string) returns (id: string)
      requires Valid()
      modifies this`extraNodes, this`annotationIds, this`registered
      ensures Valid() && id == AnnotationNode(cv, name).id
      ensures Takes([], Some((AnnotationKey(name), AnnotationNode(cv, name))))
    {
      KeyFits(cv, Interned(), registered, AnnotationKey(name));
      HandedOutNext(cv, registered, extraNodes, AnnotationKey(name), AnnotationNode(cv, name));
      annotationIds, id := Intern(annotationIds, name, AnnotationNode(cv, name));
      registered := registered + {AnnotationKey(name)};
    }

    method AddEvent(topic: string) returns (id: string)
      requires Valid()
      modifies this`extraNodes, this`eventIds, this`registered
      ensures Valid() && id == EventNode(cv, topic).id
      ensures Takes([], Some((EventKey(topic), EventNode(cv, topic))))
    {
      KeyFits(cv, Interned(), registered, EventKey(topic));
      HandedOutNext(cv, registered, extraNodes, EventKey(topic), EventNode(cv, topic));
      eventIds, id := Intern(eventIds, topic, EventNode(cv, topic));
      registered := registered + {EventKey(topic)};
    }

    method AddPolicy(name: string) returns (id: string)
      requires Valid()
      modifies this`extraNodes, this`policyIds, this`registered
      ensures Valid() && id == PolicyNode(cv, name).id
      ensures Takes([], Some((PolicyKey(name), PolicyNode(cv, name))))
    {
      KeyFits(cv, Interned(), registered, PolicyKey(name));
      HandedOutNext(cv, registered, extraNodes, PolicyKey(name), PolicyNode(cv, name));
      policyIds, id := Intern(policyIds, name, PolicyNode(cv, name));
      registered := registered + {PolicyKey(name)};
    }

    method AddEndpoint(node: Node)
      requires Valid()
      modifies this`extraNodes, this`endpointIds, this`registered
      ensures Valid() && Takes([], Some((EndpointKey(node.id), node)))
    {
      KeyFits(cv, Interned(), registered, EndpointKey(node.id));
      HandedOutNext(cv, registered, extraNodes, EndpointKey(node.id), node);
      endpointIds := Register(endpointIds, node);
      registered := registered + {EndpointKey(node.id)};
    }

    method AddExternal(node: Node)
      requires Valid()
      modifies this`extraNodes, this`externalIds, this`registered
      ensures Valid() && Takes([], Some((ExternalKey(node.id), node)))
    {
      KeyFits(cv, Interned(), registered, ExternalKey(node.id));
      HandedOutNext(cv, registered, extraNodes, ExternalKey(node.id), node);
      externalIds := Register(externalIds, node);
      registered := registered + {ExternalKey(node.id)};
    }

    method ResolveAnnotation(ref: RawRef) returns (b: Verdict)
      requires Valid()
      modifies this
      ensures Valid() && Takes(AnnotationEdges(cv, ref), AnnotationNeeded(cv, ref))
      ensures b == (if ref.targetName in cv.noiseAnnotations then External else Resolved)
        && coverage == Count(old(coverage), ref.rtype, b)
    {
      if ref.targetName in cv.noiseAnnotations {
        b := External;
      } else {
        var id := AddAnnotation(ref.targetName);
        outEdges := outEdges + [MakeEdge(ref, id, EXTRACTED, "annotation", ref.rtype)];
        b := Resolved;
      }
      coverage := Count(coverage, ref.rtype, b);
    }

    method ResolveEvent(ref: RawRef) returns (b: Verdict)
      requires Valid()
      modifies this
      ensures Valid() && Takes(EventEdges(cv, ref), EventNeeded(cv, ref))
      ensures b == (if cv.eventName(ref.targetName) == "" then Unresolved else Resolved)
        && coverage == Count(old(coverage), ref.rtype, b)
    {
      var topic := cv.eventName(ref.targetName);
      if topic == "" {
        b := Unresolved;
      } else {
        var id := AddEvent(topic);
        outEdges := outEdges + [Marked(ref, id, "event_marker")];
        b := Resolved;
      }
      coverage := Count(coverage, ref.rtype, b);
    }

    method ResolvePolicy(ref: RawRef) returns (b: Verdict)
      requires Valid()
      modifies this
      ensures Valid() && Takes([Marked(ref, PolicyNode(cv, PolicyOf(cv, ref)).id, "auth_marker")],
                               Some((PolicyKey(PolicyOf(cv, ref)), PolicyNode(cv, PolicyOf(cv, ref)))))
      ensures b == Resolved && coverage == Count(old(coverage), ref.rtype, b)
    {
      var name := cv.policyName(ref.targetName);
      if name == "" {
        name := DefaultPolicy(ref);
      }
      var id := AddPolicy(name);
      outEdges := outEdges + [Marked(ref, id, "auth_marker")];
      b := Resolved;
      coverage := Count(coverage, ref.rtype, b);
    }

    /** An edge to every matching endpoint; without one, to an external or an unresolved endpoint. */
    method ResolveApi(ref: RawRef) returns (b: Verdict)
      requires Valid()
      modifies this
      ensures Valid() && Takes(ApiEdges(cv, ref), EndpointNeeded(cv, ref))
      ensures b == Resolved && coverage == Count(old(coverage), ref.rtype, b)
    {
      var hits := cv.matchEndpoints(ref);
      if hits != [] {
        Append(ref, hits, EXTRACTED, "api_match", ref.rtype);
      } else {
        var node := cv.endpointFor(ref);
        AddEndpoint(node);
        outEdges := outEdges + [TargetEdge(ref, node.id)];
      }
      b := Resolved;
      coverage := Count(coverage, ref.rtype, b);
    }

    method ResolveFileRef(ref: RawRef) returns (b: Verdict)
      modifies this`outEdges, this`coverage
      ensures outEdges == old(outEdges) + FileEdges(sy, cv, ref)
      ensures b == FileVerdict(sy, cv, ref) && coverage == Count(old(coverage), ref.rtype, b)
    {
      if ref.kindHint != "file" {
        coverage := Count(coverage, ref.rtype, External);
        return External;
      }
      var named := Bucket(sy.ix.filesByBasename, ref.targetName);
      var candidates, strategy := named, "file_basename";
      if ref.rtype in cv.fileLangs && cv.fileLangs[ref.rtype] != {} {
        candidates := Select(candidates, WithLang(cv.fileLangs[ref.rtype]));
      }
      if |candidates| > 1 && ref.refFile != "" {
        var sameDir := Select(candidates, InDir(cv.dirOf, cv.dirOf(ref.refFile)));
        if sameDir != [] {
          candidates, strategy := sameDir, "file_same_dir";
        }
      }
      b := Emit(ref, candidates, EXTRACTED, named != [], strategy);
    }

    method ResolveHandler(ref: RawRef) returns (b: Verdict)
      modifies this`outEdges, this`coverage
      ensures outEdges == old(outEdges) + HandlerEdges(sy, cv, ref)
      ensures b == HandlerVerdict(sy, cv, ref) && coverage == Count(old(coverage), ref.rtype, b)
    {
      if ref.targetName in cv.classByFqn {
        b := Emit(ref, [cv.classByFqn[ref.targetName]], EXTRACTED, true, "handler_fqn");
      } else {
        var named := Bucket(sy.ix.classesByName, TailName(ref.targetName));
        b := Emit(ref, named, INFERRED, named != [], "handler_name");
      }
    }

    method ResolveField(ref: RawRef) returns (b: Verdict)
      modifies this`outEdges, this`coverage
      ensures outEdges == old(outEdges) + FieldEdges(sy, cv, ref)
      ensures b == FieldVerdict(sy, cv, ref) && coverage == Count(old(coverage), ref.rtype, b)
    {
      var cid := EnclosingClass(sy.ix.scopes, ref.src);
      var wanted := if cid.Some? && cid.value != "" then Members(sy.ix.fieldsOfClass, (ref.targetName, cid)) else [];
      var strategy := "same_scope";
      var file := FileOf(sy.ix.scopes, ref.src);
      if wanted == [] && file != "" {
        wanted, strategy := Members(sy.ix.fieldsOfFile, (ref.targetName, Some(file))), "same_file_global";
      }
      b := Emit(ref, wanted, EXTRACTED, wanted != [], strategy);
    }

    method ResolveType(ref: RawRef) returns (b: Verdict)
      modifies this`outEdges, this`coverage
      ensures outEdges == old(outEdges) + TypeEdges(sy, cv, ref)
      ensures b == TypeVerdict(sy, cv, ref) && coverage == Count(old(coverage), ref.rtype, b)
    {
      var hits := NarrowType(sy, ref);
      b := Emit(ref, hits.0, if hits.1 != "name" && hits.1 != "none" then EXTRACTED else INFERRED,
                Bucket(sy.ix.classesByName, TailName(ref.targetName)) != [], hits.1);
    }

    method ResolveByKind(ref: RawRef) returns (b: Verdict)
      modifies this`outEdges, this`coverage
      ensures outEdges == old(outEdges) + HintedEdges(sy, cv, ref)
      ensures b == HintedVerdict(sy, cv, ref) && coverage == Count(old(coverage), ref.rtype, b)
    {
      var candidates := Bucket(sy.ix.byName, ref.targetName);
      var wanted := if ref.kindHint == "type" || ref.kindHint == "import" then Select(candidates, Tagged("Class"))
                    else if ref.kindHint == "call" then Select(candidates, Tagged("Function"))
                    else candidates;
      if wanted == [] {
        wanted := candidates;
      }
      b := Emit(ref, wanted, INFERRED, ref.targetName in sy.ix.byName, "kind_hint");
    }

    /** A receiver of a type outside the repository: at most one edge, to the external API it names. */
    method ResolveExternalCall(ref: RawRef)
      requires Valid()
      modifies this`outEdges, this`extraNodes, this`externalIds, this`registered
      ensures Valid() && Takes(ExternalEdges(cv, ref), ApiNeeded(cv, ref))
    {
      if cv.isClassified(ref) {
        var node := cv.externalFor(ref);
        AddExternal(node);
        outEdges := outEdges + [MakeEdge(ref, node.id, EXTRACTED, "external_typed", "CALLS_EXTERNAL")];
      }
    }

    /** The weak REFERENCES edges that stand for a call matched by bare name on an unknown receiver. */
    method DemoteCall(ref: RawRef, wanted: seq<Node>, strategy: string) returns (b: Verdict)
      requires wanted != []
      modifies this`outEdges, this`coverage
      ensures b == DemotedVerdict(cv.cap, wanted) && coverage == Settle(old(coverage), WEAK, ref.rtype, Demoted(b))
      ensures outEdges == old(outEdges) + DemotedEdges(cv.cap, ref, wanted, strategy)
    {
      if |wanted| == 1 {
        Append(ref, wanted, INFERRED, strategy + "+unknown_recv", WEAK);
        b := Resolved;
      } else if cv.cap != 0 && |wanted| > cv.cap {
        b := Unresolved;
      } else {
        Append(ref, wanted, AMBIGUOUS, strategy + "+unknown_recv", WEAK);
        b := Ambiguous;
      }
      coverage := Retotal(coverage, ref.rtype, -1);
      coverage := Receive(coverage, WEAK, b);
    }

    /** A call no candidate was found for: weak REFERENCES edges when the name is dotted and its tail is known. */
    method CallFallback(ref: RawRef, ghost b: Verdict) returns (ghost a: Account)
      modifies this`outEdges, this`coverage
      ensures var found := FallbackCandidates(sy, ref.targetName);
        && a == (if found == [] then Plain(b) else Fallback(b, WeakVerdict(found)))
        && coverage == (if found == [] then old(coverage) else Receive(old(coverage), WEAK, WeakVerdict(found)))
        && outEdges == old(outEdges) + WeakEdges(ref, found)
    {
      var found := FallbackCandidates(sy, ref.targetName);
      a := Plain(b);
      if found != [] {
        Append(ref, found, if |found| == 1 then INFERRED else AMBIGUOUS, NO_MATCH, WEAK);
        var fb := if |found| == 1 then Resolved else Ambiguous;
        coverage := Receive(coverage, WEAK, fb);
        a := Fallback(b, fb);
      }
    }

    /** A call that is neither skipped, foreign nor demoted. */
    method EmitCall(ref: RawRef, wanted: seq<Node>, strategy: string) returns (ghost a: Account)
      modifies this`outEdges, this`coverage
      ensures var b, found := VerdictOf(cv.cap, wanted, ref.targetName in sy.ix.byName, strategy),
        FallbackCandidates(sy, ref.targetName);
        a == if wanted == [] && found != [] then Fallback(b, WeakVerdict(found)) else Plain(b)
      ensures coverage == Settle(old(coverage), WEAK, ref.rtype, a)
      ensures outEdges == old(outEdges)
        + if wanted == [] then WeakEdges(ref, FallbackCandidates(sy, ref.targetName))
          else Capped(cv.cap, ref, wanted, INFERRED, strategy)
    {
      var b := Emit(ref, wanted, INFERRED, ref.targetName in sy.ix.byName, strategy);
      a := Plain(b);
      if wanted == [] {
        assert outEdges == old(outEdges);
        a := CallFallback(ref, b);
      }
    }

    method ResolveCall(ref: RawRef) returns (ghost a: Account)
      requires Valid()
      modifies this
      ensures Valid() && Takes(CallEdges(sy, cv, ref), ExternalNeeded(sy, cv, ref))
      ensures a == CallAccount(sy, cv, ref) && coverage == Settle(old(coverage), WEAK, ref.rtype, a)
    {
      if ref.refFile in cv.skipFiles {
        coverage := Count(coverage, ref.rtype, External);
        return Plain(External);
      }
      var (wanted, strategy) := NarrowCall(sy, ref);
      if strategy == EXTERNAL_RECEIVER {
        coverage := Count(coverage, ref.rtype, External);
        ResolveExternalCall(ref);
        a := Plain(External);
      } else {
        a := ResolveKnownCall(ref, wanted, strategy);
      }
    }

    /** A call on a receiver that is not known to be foreign. */
    method ResolveKnownCall(ref: RawRef, wanted: seq<Node>, strategy: string) returns (ghost a: Account)
      modifies this`outEdges, this`coverage
      ensures outEdges == old(outEdges) + KnownCallEdges(sy, cv, ref, wanted, strategy)
      ensures a == KnownCallAccount(sy, cv, ref, wanted, strategy)
        && coverage == Settle(old(coverage), WEAK, ref.rtype, a)
    {
      if wanted != [] && NameTier(strategy) && ref.recv != "" && !IsSelf(ref.recv) {
        var d := DemoteCall(ref, wanted, strategy);
        a := Demoted(d);
      } else {
        a := EmitCall(ref, wanted, strategy);
      }
    }

    /** One reference, by its type. */
    method ResolveOneRef(ref: RawRef) returns (ghost a: Account)
      requires Valid()
      modifies this
      ensures Valid() && a == AccountFor(sy, cv, ref) && coverage == Settle(old(coverage), WEAK, ref.rtype, a)
      ensures Takes(AddedFor(sy, cv, ref), NeedFor(sy, cv, ref))
    {
      if ref.rtype in cv.droppedTypes {
        return Skipped;
      }
      a := ResolveKind(ref, KindOf(ref.rtype));
    }

    method ResolveKind(ref: RawRef, kind: RefKind) returns (ghost a: Account)
      requires Valid()
      modifies this
      ensures Valid() && Takes(EdgesOfKind(kind, sy, cv, ref), NeededOfKind(kind, sy, cv, ref))
      ensures a == AccountOfKind(kind, sy, cv, ref) && coverage == Settle(old(coverage), WEAK, ref.rtype, a)
    {
      if kind == Calls {
        a := ResolveCall(ref);
      } else if kind.Annotates? || kind.Events? || kind.Policies? || kind.CallsApi? {
        var b := ResolveMarker(ref, kind);
        a := Plain(b);
      } else {
        var b := ResolveLookup(ref, kind);
        a := Plain(b);
      }
    }

    /** The kinds whose target may be synthesized without a call. */
    method ResolveMarker(ref: RawRef, kind: RefKind) returns (b: Verdict)
      requires Valid() && (kind.Annotates? || kind.Events? || kind.Policies? || kind.CallsApi?)
      modifies this
      ensures Valid() && Takes(EdgesOfKind(kind, sy, cv, ref), NeededOfKind(kind, sy, cv, ref))
      ensures b == PlainVerdict(kind, sy, cv, ref) && coverage == Count(old(coverage), ref.rtype, b)
    {
      match kind {
        case Annotates => b := ResolveAnnotation(ref);
        case Events => b := ResolveEvent(ref);
        case Policies => b := ResolvePolicy(ref);
        case CallsApi => b := ResolveApi(ref);
      }
    }

    /** The kinds whose target is looked up, and which synthesize nothing. */
    method ResolveLookup(ref: RawRef, kind: RefKind) returns (b: Verdict)
      requires kind.NamesFile? || kind.HandledBy? || kind.TouchesField? || kind.NamesType? || kind.Other?
      modifies this`outEdges, this`coverage
      ensures outEdges == old(outEdges) + EdgesOfKind(kind, sy, cv, ref)
      ensures b == PlainVerdict(kind, sy, cv, ref) && coverage == Count(old(coverage), ref.rtype, b)
    {
      match kind {
        case NamesFile => b := ResolveFileRef(ref);
        case HandledBy => b := ResolveHandler(ref);
        case TouchesField => b := ResolveField(ref);
        case NamesType => b := ResolveType(ref);
        case Other => b := ResolveByKind(ref);
      }
    }

    /** One turn of the main loop: the total goes up before the reference is looked at. */
    method Process(ref: RawRef) returns (ghost a: Account)
      requires Valid()
      modifies this
      ensures Valid() && a == AccountFor(sy, cv, ref)
      ensures coverage == Settle(Retotal(old(coverage), ref.rtype, 1), WEAK, ref.rtype, a)
      ensures Takes(AddedFor(sy, cv, ref), NeedFor(sy, cv, ref))
    {
      coverage := Retotal(coverage, ref.rtype, 1);
      a := ResolveOneRef(ref);
    }
  }
}
