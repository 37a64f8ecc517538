/** What a reference asks of the graph: its edges, the node it may synthesize, and how it is counted. */
module ReferenceEdges {
  import opened GraphModel
  import opened LookupIndices
  import opened DottedNames
  import opened Containment
  import opened Narrowing
  import opened Dispatch
  import opened CoverageLedger

  /** The tables and conventions resolution is given. */
  datatype Conventions = Conventions(
    droppedTypes: set<string>, noiseAnnotations: set<string>, cap: nat, skipFiles: set<string>,
    makeId: (string, string) -> string,
    eventName: string -> string, policyName: string -> string,
    matchEndpoints: RawRef -> seq<Node>, endpointFor: RawRef -> Node,
    fileLangs: map<string, set<string>>, dirOf: string -> string,
    classByFqn: map<string, Node>,
    isClassified: RawRef -> bool, externalFor: RawRef -> Node)

  const EXTRACTED := "EXTRACTED"
  const INFERRED := "INFERRED"
  const AMBIGUOUS := "AMBIGUOUS"

  function MakeEdge(ref: RawRef, dst: string, confidence: string, strategy: string, etype: string): Edge {
    Edge(etype, ref.src, dst, confidence, strategy, ref.refFile, ref.refLine, ref.refCol)
  }

  function FanOut(ref: RawRef, wanted: seq<Node>, confidence: string, strategy: string, etype: string): seq<Edge> {
    seq(|wanted|, i requires 0 <= i < |wanted| => MakeEdge(ref, wanted[i].id, confidence, strategy, etype))
  }

  /** An edge to an event or a policy, weaker when the reference was found by a loose match. */
  function Marked(ref: RawRef, dst: string, mark: string): Edge {
    if ref.strategyHint == "fuzzy_name" then MakeEdge(ref, dst, AMBIGUOUS, "fuzzy_name", ref.rtype)
    else MakeEdge(ref, dst, EXTRACTED, mark, ref.rtype)
  }

  /** An API call with no handler in the repository: external with a host, unresolved without. */
  function TargetEdge(ref: RawRef, dst: string): Edge {
    if ref.recv != "" then MakeEdge(ref, dst, EXTRACTED, "api_external", ref.rtype)
    else MakeEdge(ref, dst, INFERRED, "api_unresolved", ref.rtype)
  }

  function DefaultPolicy(ref: RawRef): string {
    if ref.rtype == "REQUIRES_AUTH" then "AUTH_REQUIRED" else "POLICY"
  }

  function PolicyOf(cv: Conventions, ref: RawRef): string {
    var name := cv.policyName(ref.targetName);
    if name == "" then DefaultPolicy(ref) else name
  }

  /** The strategies of the bare-name tier. */
  predicate NameTier(strategy: string) { "name" <= strategy }

  /** With a cap set, a reference that emits more than `cap` edges emits none from the bare-name tier. */
  ghost predicate CapHeld(cap: nat, added: seq<Edge>) {
    0 < cap < |added| ==> forall e :: e in added ==> !NameTier(e.strategy)
  }

  function FallbackCandidates(sy: Symbols, name: string): seq<Node> {
    var tail := TailName(name);
    if tail == "" || tail == name then []
    else
      var cands := Bucket(sy.ix.byName, tail);
      var fns := Select(cands, IsFunction());
      if fns != [] then fns else cands
  }

  function WithLang(langs: set<string>): Node -> bool { (n: Node) => n.lang in langs }
  function InDir(dirOf: string -> string, dir: string): Node -> bool { (n: Node) => dirOf(n.file) == dir }
  function Tagged(tag: string): Node -> bool { (n: Node) => n.tag == tag }

  datatype RefKind =
    | Annotates | Events | Policies | CallsApi | NamesFile | HandledBy | Calls | TouchesField | NamesType | Other

  function KindOf(rtype: string): RefKind {
    if rtype == "ANNOTATED_WITH" then Annotates
    else if rtype == "EMITS_EVENT" || rtype == "CONSUMES_EVENT" then Events
    else if rtype == "REQUIRES_AUTH" || rtype == "ENFORCES_POLICY" then Policies
    else if rtype == "CALLS_API" then CallsApi
    else if rtype == "RENDERS" || rtype == "INCLUDES_SCRIPT" || rtype == "INCLUDES_PAGE" then NamesFile
    else if rtype == "HANDLED_BY" then HandledBy
    else if rtype == "CALLS" then Calls
    else if rtype == "READS" || rtype == "WRITES" then TouchesField
    else if rtype == "EXTENDS" || rtype == "IMPLEMENTS" || rtype == "INSTANTIATES"
      || rtype == "AUTOWIRED" then NamesType
    else Other
  }

  // ---- the edges a reference asks for -----------------------------------

  /** A fan-out under the cap: several targets make each of them ambiguous, too many bare-name targets make none. */
  function Capped(cap: nat, ref: RawRef, wanted: seq<Node>, confidence: string, strategy: string): seq<Edge> {
    if |wanted| <= 1 then FanOut(ref, wanted, confidence, strategy, ref.rtype)
    else if NameTier(strategy) && 0 < cap < |wanted| then []
    else FanOut(ref, wanted, AMBIGUOUS, strategy, ref.rtype)
  }

  function CallEdges(sy: Symbols, cv: Conventions, ref: RawRef): seq<Edge> {
    if ref.refFile in cv.skipFiles then [] else
    var (wanted, strategy) := NarrowCall(sy, ref);
    if strategy == EXTERNAL_RECEIVER then ExternalEdges(cv, ref)
    else KnownCallEdges(sy, cv, ref, wanted, strategy)
  }

  /** A call whose receiver is not known to be foreign. */
  function KnownCallEdges(sy: Symbols, cv: Conventions, ref: RawRef, wanted: seq<Node>, strategy: string): seq<Edge> {
    if wanted == [] then WeakEdges(ref, FallbackCandidates(sy, ref.targetName))
    else if SharesOnlyName(ref, strategy) then DemotedEdges(cv.cap, ref, wanted, strategy)
    else Capped(cv.cap, ref, wanted, INFERRED, strategy)
  }

  /** The candidates share nothing with the call but the bare name, and it has a receiver that is not the caller
      itself. */
  predicate SharesOnlyName(ref: RawRef, strategy: string) { NameTier(strategy) && ref.recv != "" && !IsSelf(ref.recv) }

  function ExternalEdges(cv: Conventions, ref: RawRef): seq<Edge> {
    if cv.isClassified(ref) then [MakeEdge(ref, cv.externalFor(ref).id, EXTRACTED, "external_typed", "CALLS_EXTERNAL")]
      else []
  }

  function WeakEdges(ref: RawRef, found: seq<Node>): seq<Edge> {
    FanOut(ref, found, if |found| == 1 then INFERRED else AMBIGUOUS, NO_MATCH, WEAK)
  }

  function DemotedEdges(cap: nat, ref: RawRef, wanted: seq<Node>, strategy: string): seq<Edge> {
    if 1 < |wanted| && 0 < cap < |wanted| then []
    else FanOut(ref, wanted, if |wanted| == 1 then INFERRED else AMBIGUOUS, strategy + "+unknown_recv", WEAK)
  }

  function TypeEdges(sy: Symbols, cv: Conventions, ref: RawRef): seq<Edge> {
    var hits := NarrowType(sy, ref);
    Capped(cv.cap, ref, hits.0, if hits.1 != "name" && hits.1 != "none" then EXTRACTED else INFERRED, hits.1)
  }

  /** Pages and scripts by base name, in the languages of the edge type, preferring the referencing file's directory. */
  function FileHits(sy: Symbols, cv: Conventions, ref: RawRef): Hits {
    var named := Bucket(sy.ix.filesByBasename, ref.targetName);
    var fit := if ref.rtype in cv.fileLangs && cv.fileLangs[ref.rtype] != {}
      then Select(named, WithLang(cv.fileLangs[ref.rtype])) else named;
    var near := if |fit| > 1 && ref.refFile != "" then Select(fit, InDir(cv.dirOf, cv.dirOf(ref.refFile))) else [];
    if near != [] then (near, "file_same_dir") else (fit, "file_basename")
  }

  function HandlerHits(sy: Symbols, cv: Conventions, ref: RawRef): Hits {
    if ref.targetName in cv.classByFqn then ([cv.classByFqn[ref.targetName]], "handler_fqn")
    else (Bucket(sy.ix.classesByName, TailName(ref.targetName)), "handler_name")
  }

  /** Fields of the enclosing class first, then the file's globals. */
  function FieldHits(sy: Symbols, ref: RawRef): Hits {
    var cid, file := EnclosingClass(sy.ix.scopes, ref.src), FileOf(sy.ix.scopes, ref.src);
    var own := if cid.Some? && cid.value != "" then Members(sy.ix.fieldsOfClass, (ref.targetName, cid)) else [];
    if own == [] && file != "" then (Members(sy.ix.fieldsOfFile, (ref.targetName, Some(file))), "same_file_global")
    else (own, "same_scope")
  }

  function HintedHits(sy: Symbols, ref: RawRef): seq<Node> {
    var named := Bucket(sy.ix.byName, ref.targetName);
    var fit := if ref.kindHint == "type" || ref.kindHint == "import" then Select(named, Tagged("Class"))
               else if ref.kindHint == "call" then Select(named, Tagged("Function"))
               else named;
    if fit == [] then named else fit
  }

  function FileEdges(sy: Symbols, cv: Conventions, ref: RawRef): seq<Edge> {
    if ref.kindHint != "file" then [] else var h := FileHits(sy, cv, ref); Capped(cv.cap, ref, h.0, EXTRACTED, h.1)
  }

  function HandlerEdges(sy: Symbols, cv: Conventions, ref: RawRef): seq<Edge> {
    var h := HandlerHits(sy, cv, ref);
    Capped(cv.cap, ref, h.0, if ref.targetName in cv.classByFqn then EXTRACTED else INFERRED, h.1)
  }

  function FieldEdges(sy: Symbols, cv: Conventions, ref: RawRef): seq<Edge> {
    var h := FieldHits(sy, ref); Capped(cv.cap, ref, h.0, EXTRACTED, h.1)
  }

  /** The edges of a reference of a type that is not dropped. */
  function EdgesFor(sy: Symbols, cv: Conventions, ref: RawRef): seq<Edge> {
    EdgesOfKind(KindOf(ref.rtype), sy, cv, ref)
  }

  function EdgesOfKind(kind: RefKind, sy: Symbols, cv: Conventions, ref: RawRef): seq<Edge> {
    match kind
    case Annotates => AnnotationEdges(cv, ref)
    case Events => EventEdges(cv, ref)
    case Policies => [Marked(ref, PolicyNode(cv, PolicyOf(cv, ref)).id, "auth_marker")]
    case CallsApi => ApiEdges(cv, ref)
    case Calls => CallEdges(sy, cv, ref)
    case NamesType => TypeEdges(sy, cv, ref)
    case NamesFile => FileEdges(sy, cv, ref)
    case HandledBy => HandlerEdges(sy, cv, ref)
    case TouchesField => FieldEdges(sy, cv, ref)
    case Other => HintedEdges(sy, cv, ref)
  }

  lemma TypeKind(sy: Symbols, cv: Conventions, ref: RawRef)
    ensures EdgesOfKind(NamesType, sy, cv, ref) == TypeEdges(sy, cv, ref)
  {
  }

  lemma FileKind(sy: Symbols, cv: Conventions, ref: RawRef)
    ensures EdgesOfKind(NamesFile, sy, cv, ref) == FileEdges(sy, cv, ref)
  {
  }

  lemma HandlerKind(sy: Symbols, cv: Conventions, ref: RawRef)
    ensures EdgesOfKind(HandledBy, sy, cv, ref) == HandlerEdges(sy, cv, ref)
  {
  }

  lemma FieldKind(sy: Symbols, cv: Conventions, ref: RawRef)
    ensures EdgesOfKind(TouchesField, sy, cv, ref) == FieldEdges(sy, cv, ref)
  {
  }

  lemma HintedKind(sy: Symbols, cv: Conventions, ref: RawRef)
    ensures EdgesOfKind(Other, sy, cv, ref) == HintedEdges(sy, cv, ref)
  {
  }

  function HintedEdges(sy: Symbols, cv: Conventions, ref: RawRef): seq<Edge> {
    Capped(cv.cap, ref, HintedHits(sy, ref), INFERRED, "kind_hint")
  }

  function AnnotationEdges(cv: Conventions, ref: RawRef): seq<Edge> {
    if ref.targetName in cv.noiseAnnotations then []
    else [MakeEdge(ref, AnnotationNode(cv, ref.targetName).id, EXTRACTED, "annotation", ref.rtype)]
  }

  function EventEdges(cv: Conventions, ref: RawRef): seq<Edge> {
    var topic := cv.eventName(ref.targetName);
    if topic == "" then [] else [Marked(ref, EventNode(cv, topic).id, "event_marker")]
  }

  function ApiEdges(cv: Conventions, ref: RawRef): seq<Edge> {
    var hits := cv.matchEndpoints(ref);
    if hits != [] then FanOut(ref, hits, EXTRACTED, "api_match", ref.rtype)
      else [TargetEdge(ref, cv.endpointFor(ref).id)]
  }

  // ---- synthesized nodes -----------------------------------------------

  function AnnotationNode(cv: Conventions, name: string): Node {
    Node(cv.makeId("@" + name, "annotation"), "Annotation", name, "@" + name, "annotation", "", "", "", 0, 0)
  }

  function EventNode(cv: Conventions, topic: string): Node {
    Node(cv.makeId("event:" + topic, "event"), "Event", topic, "event://" + topic, "event", "", "", "", 0, 0)
  }

  function PolicyNode(cv: Conventions, name: string): Node {
    Node(cv.makeId("policy:" + name, "policy"), "Policy", name, "policy://" + name, "policy", "", "", "", 0, 0)
  }

  /** Under what a synthesized node is registered: each kind in a table of its own. */
  datatype SynthKey =
    | AnnotationKey(name: string)
    | EventKey(topic: string)
    | PolicyKey(policy: string)
    | EndpointKey(id: string)
    | ExternalKey(id: string)

  function IdOfKey(cv: Conventions, key: SynthKey): string {
    match key
    case AnnotationKey(name) => AnnotationNode(cv, name).id
    case EventKey(topic) => EventNode(cv, topic).id
    case PolicyKey(name) => PolicyNode(cv, name).id
    case EndpointKey(id) => id
    case ExternalKey(id) => id
  }

  type Synthesis = Option<(SynthKey, Node)>

  /** The node a reference needs that no source declares. */
  function Needed(sy: Symbols, cv: Conventions, ref: RawRef): Synthesis { NeededOfKind(KindOf(ref.rtype), sy, cv, ref) }

  /** References of a dropped type ask for nothing. */
  function AddedFor(sy: Symbols, cv: Conventions, ref: RawRef): seq<Edge> {
    if ref.rtype in cv.droppedTypes then [] else EdgesFor(sy, cv, ref)
  }

  function NeedFor(sy: Symbols, cv: Conventions, ref: RawRef): Synthesis {
    if ref.rtype in cv.droppedTypes then None else Needed(sy, cv, ref)
  }

  function NeededOfKind(kind: RefKind, sy: Symbols, cv: Conventions, ref: RawRef): Synthesis {
    match kind
    case Annotates => AnnotationNeeded(cv, ref)
    case Events => EventNeeded(cv, ref)
    case Policies => Some((PolicyKey(PolicyOf(cv, ref)), PolicyNode(cv, PolicyOf(cv, ref))))
    case CallsApi => EndpointNeeded(cv, ref)
    case Calls => ExternalNeeded(sy, cv, ref)
    case _ => None
  }

  function AnnotationNeeded(cv: Conventions, ref: RawRef): Synthesis {
    if ref.targetName in cv.noiseAnnotations then None else Some((AnnotationKey(ref.targetName),
      AnnotationNode(cv, ref.targetName)))
  }

  function EventNeeded(cv: Conventions, ref: RawRef): Synthesis {
    var topic := cv.eventName(ref.targetName);
    if topic == "" then None else Some((EventKey(topic), EventNode(cv, topic)))
  }

  function EndpointNeeded(cv: Conventions, ref: RawRef): Synthesis {
    var node := cv.endpointFor(ref);
    if cv.matchEndpoints(ref) != [] then None else Some((EndpointKey(node.id), node))
  }

  function ExternalNeeded(sy: Symbols, cv: Conventions, ref: RawRef): Synthesis {
    if ref.refFile !in cv.skipFiles && NarrowCall(sy, ref).1 == EXTERNAL_RECEIVER then ApiNeeded(cv, ref) else None
  }

  function ApiNeeded(cv: Conventions, ref: RawRef): Synthesis {
    var node := cv.externalFor(ref);
    if cv.isClassified(ref) then Some((ExternalKey(node.id), node)) else None
  }

  /** What is new of it. */
  function NewNodes(registered: set<SynthKey>, need: Synthesis): seq<Node> {
    if need.Some? && need.value.0 !in registered then [need.value.1] else []
  }

  function KeysOf(need: Synthesis): set<SynthKey> { if need.Some? then {need.value.0} else {} }

  // ---- how a reference is counted --------------------------------------------

  function VerdictOf(cap: nat, wanted: seq<Node>, known: bool, strategy: string): Verdict {
    if |wanted| == 1 then Resolved
    else if |wanted| == 0 then (if known then Unresolved else External)
    else if NameTier(strategy) && 0 < cap < |wanted| then Unresolved else Ambiguous
  }

  function AccountFor(sy: Symbols, cv: Conventions, ref: RawRef): Account {
    if ref.rtype in cv.droppedTypes then Skipped else AccountOfKind(KindOf(ref.rtype), sy, cv, ref)
  }

  function AccountOfKind(kind: RefKind, sy: Symbols, cv: Conventions, ref: RawRef): Account {
    if kind == Calls then CallAccount(sy, cv, ref) else Plain(PlainVerdict(kind, sy, cv, ref))
  }

  function PlainVerdict(kind: RefKind, sy: Symbols, cv: Conventions, ref: RawRef): Verdict {
    match kind
    case Annotates => if ref.targetName in cv.noiseAnnotations then External else Resolved
    case Events => if cv.eventName(ref.targetName) == "" then Unresolved else Resolved
    case NamesFile => FileVerdict(sy, cv, ref)
    case HandledBy => HandlerVerdict(sy, cv, ref)
    case TouchesField => FieldVerdict(sy, cv, ref)
    case NamesType => TypeVerdict(sy, cv, ref)
    case Other => HintedVerdict(sy, cv, ref)
    case _ => Resolved
  }

  function FieldVerdict(sy: Symbols, cv: Conventions, ref: RawRef): Verdict {
    var h := FieldHits(sy, ref); VerdictOf(cv.cap, h.0, h.0 != [], h.1)
  }

  function HintedVerdict(sy: Symbols, cv: Conventions, ref: RawRef): Verdict {
    VerdictOf(cv.cap, HintedHits(sy, ref), ref.targetName in sy.ix.byName, "kind_hint")
  }

  function FileVerdict(sy: Symbols, cv: Conventions, ref: RawRef): Verdict {
    if ref.kindHint != "file" then External
    else var h := FileHits(sy, cv, ref); VerdictOf(cv.cap, h.0, Bucket(sy.ix.filesByBasename, ref.targetName) != [],
                                                   h.1)
  }

  function HandlerVerdict(sy: Symbols, cv: Conventions, ref: RawRef): Verdict {
    var h := HandlerHits(sy, cv, ref); VerdictOf(cv.cap, h.0, h.0 != [], h.1)
  }

  function TypeVerdict(sy: Symbols, cv: Conventions, ref: RawRef): Verdict {
    var h := NarrowType(sy, ref);
    VerdictOf(cv.cap, h.0, Bucket(sy.ix.classesByName, TailName(ref.targetName)) != [], h.1)
  }

  function CallAccount(sy: Symbols, cv: Conventions, ref: RawRef): Account {
    if ref.refFile in cv.skipFiles || NarrowCall(sy, ref).1 == EXTERNAL_RECEIVER then Plain(External)
    else var (wanted, strategy) := NarrowCall(sy, ref); KnownCallAccount(sy, cv, ref, wanted, strategy)
  }

  function KnownCallAccount(sy: Symbols, cv: Conventions, ref: RawRef, wanted: seq<Node>, strategy: string): Account {
    var b, found := VerdictOf(cv.cap, wanted, ref.targetName in sy.ix.byName, strategy),
      FallbackCandidates(sy, ref.targetName);
    if wanted == [] then (if found == [] then Plain(b) else Fallback(b, WeakVerdict(found)))
    else if SharesOnlyName(ref, strategy) then Demoted(DemotedVerdict(cv.cap, wanted))
    else Plain(b)
  }

  function WeakVerdict(found: seq<Node>): Verdict { if |found| == 1 then Resolved else Ambiguous }

  function DemotedVerdict(cap: nat, wanted: seq<Node>): Verdict {
    if |wanted| == 1 then Resolved else if 0 < cap < |wanted| then Unresolved else Ambiguous
  }

  /** A call whose receiver is a name of unknown type and whose candidates share nothing with it but the bare name. */
  predicate CallsUnknownReceiver(sy: Symbols, cv: Conventions, ref: RawRef) {
    ref.refFile !in cv.skipFiles && NarrowCall(sy, ref).0 != [] && SharesOnlyName(ref, NarrowCall(sy, ref).1)
  }

  const EXTERNAL_RECEIVER := "external_receiver"
  const WEAK := "REFERENCES"
  const NO_MATCH := "none+fallback_tail"

  // ---- where edges may lead, and how many ---------------------------------------

  ghost predicate AllIn(ids: set<string>, nodes: seq<Node>) {
    forall n :: n in nodes ==> n.id in ids
  }

  /** Every table the resolver looks candidates up in holds nodes of the graph only. */
  ghost predicate LookupsWithin(sy: Symbols, cv: Conventions, ids: set<string>) {
    && TablesWithin(cv, ids)
    && (forall ref :: AllIn(ids, NarrowCall(sy, ref).0))
    && (forall ref :: AllIn(ids, NarrowType(sy, ref).0))
    && (forall name :: AllIn(ids, Bucket(sy.ix.byName, name)))
    && (forall name :: AllIn(ids, Bucket(sy.ix.classesByName, name)))
    && (forall name :: AllIn(ids, Bucket(sy.ix.filesByBasename, name)))
    && (forall key :: AllIn(ids, Members(sy.ix.fieldsOfClass, key)))
    && (forall key :: AllIn(ids, Members(sy.ix.fieldsOfFile, key)))
  }

  /** The tables given beside the indices name known nodes only. */
  ghost predicate TablesWithin(cv: Conventions, ids: set<string>) {
    && (forall ref :: AllIn(ids, cv.matchEndpoints(ref)))
    && (forall fqn :: fqn in cv.classByFqn ==> cv.classByFqn[fqn].id in ids)
  }

  lemma NarrowsWithin(sy: Symbols, nodes: seq<Node>)
    requires Built(sy.ix, nodes)
    ensures forall ref :: AllIn(IdsOf(nodes), NarrowCall(sy, ref).0)
    ensures forall ref :: AllIn(IdsOf(nodes), NarrowType(sy, ref).0)
  {
    forall ref ensures AllIn(IdsOf(nodes), NarrowCall(sy, ref).0) {
      NarrowCallIsSound(sy, nodes, ref);
      forall n | n in NarrowCall(sy, ref).0 ensures n.id in IdsOf(nodes) {
        assert CandidateFor(nodes, ref.targetName, n);
      }
    }
    forall ref ensures AllIn(IdsOf(nodes), NarrowType(sy, ref).0) {
      NarrowTypeKeepsSome(sy, ref);
      BucketWithin(sy.ix.classesByName, {"Class"}, nodes, TailName(ref.targetName));
    }
  }

  lemma BucketWithin(idx: Buckets, tags: set<string>, nodes: seq<Node>, name: string)
    requires BucketsBy(idx, tags, nodes)
    ensures AllIn(IdsOf(nodes), Bucket(idx, name))
  {
    assert Bucket(idx, name) == Select(nodes, NamedLike(tags, name));
  }

  lemma MembersWithin(idx: Slots, kind: SlotKind, sc: Scopes, nodes: seq<Node>, key: Key)
    requires Indexes(idx, kind, sc, nodes)
    ensures AllIn(IdsOf(nodes), Members(idx, key))
  {
    assert Members(idx, key) == Select(nodes, FiledUnder(kind, sc, key));
  }

  lemma BuiltWithin(sy: Symbols, cv: Conventions, nodes: seq<Node>)
    requires Built(sy.ix, nodes) && TablesWithin(cv, IdsOf(nodes))
    ensures LookupsWithin(sy, cv, IdsOf(nodes))
  {
    NarrowsWithin(sy, nodes);
    forall name { BucketWithin(sy.ix.byName, CALLABLES, nodes, name); }
    forall name { BucketWithin(sy.ix.classesByName, {"Class"}, nodes, name); }
    forall name { BucketWithin(sy.ix.filesByBasename, {"File"}, nodes, name); }
    forall key { MembersWithin(sy.ix.fieldsOfClass, FieldsOfClass, sy.ix.scopes, nodes, key); }
    forall key { MembersWithin(sy.ix.fieldsOfFile, FieldsOfFile, sy.ix.scopes, nodes, key); }
  }

  lemma FallbackWithin(sy: Symbols, cv: Conventions, name: string, ids: set<string>)
    requires LookupsWithin(sy, cv, ids)
    ensures AllIn(ids, FallbackCandidates(sy, name))
  {
    assert AllIn(ids, Bucket(sy.ix.byName, TailName(name)));
  }

  /** Edges of one reference, onto known ids, none of the bare-name tier when there are more than the cap. */
  ghost predicate Fair(ref: RawRef, cap: nat, ids: set<string>, edges: seq<Edge>) {
    && CapHeld(cap, edges)
    && forall e :: e in edges ==> e.src == ref.src && e.dst in ids
  }

  lemma FanOutFair(ref: RawRef, wanted: seq<Node>, confidence: string, strategy: string, etype: string, cap: nat,
                   ids: set<string>)
    requires AllIn(ids, wanted)
    requires cap == 0 || |wanted| <= cap || !NameTier(strategy)
    ensures Fair(ref, cap, ids, FanOut(ref, wanted, confidence, strategy, etype))
  {
  }

  lemma CappedFair(ref: RawRef, wanted: seq<Node>, confidence: string, strategy: string, cap: nat, ids: set<string>)
    requires AllIn(ids, wanted)
    ensures Fair(ref, cap, ids, Capped(cap, ref, wanted, confidence, strategy))
  {
    if |wanted| <= 1 {
      FanOutFair(ref, wanted, confidence, strategy, ref.rtype, 0, ids);
    } else if !(NameTier(strategy) && 0 < cap < |wanted|) {
      FanOutFair(ref, wanted, AMBIGUOUS, strategy, ref.rtype, cap, ids);
    }
  }

  lemma NameTierStarts(strategy: string)
    ensures NameTier(strategy) ==> |strategy| >= 2 && strategy[0] == 'n' && strategy[1] == 'a'
  {
    if NameTier(strategy) {
      assert strategy[0] == "name"[0] && strategy[1] == "name"[1];
    }
  }

  lemma WeakFair(ref: RawRef, found: seq<Node>, cap: nat, ids: set<string>)
    requires AllIn(ids, found)
    ensures Fair(ref, cap, ids, WeakEdges(ref, found))
  {
    NameTierStarts(NO_MATCH);
    FanOutFair(ref, found, if |found| == 1 then INFERRED else AMBIGUOUS, NO_MATCH, WEAK, cap, ids);
  }

  lemma DemotedFair(ref: RawRef, wanted: seq<Node>, strategy: string, cap: nat, ids: set<string>)
    requires AllIn(ids, wanted)
    ensures Fair(ref, cap, ids, DemotedEdges(cap, ref, wanted, strategy))
  {
    if |wanted| <= 1 {
      FanOutFair(ref, wanted, if |wanted| == 1 then INFERRED else AMBIGUOUS, strategy + "+unknown_recv", WEAK, 0, ids);
    } else if !(0 < cap < |wanted|) {
      FanOutFair(ref, wanted, AMBIGUOUS, strategy + "+unknown_recv", WEAK, cap, ids);
    }
  }

  lemma FairIn(ref: RawRef, cap: nat, ids: set<string>, more: set<string>, edges: seq<Edge>)
    requires Fair(ref, cap, ids, edges)
    ensures Fair(ref, cap, ids + more, edges)
  {
  }

  lemma ExternalFair(cv: Conventions, ref: RawRef, ids: set<string>)
    ensures Fair(ref, cv.cap, ids + (if cv.isClassified(ref) then {cv.externalFor(ref).id} else {}),
                 ExternalEdges(cv, ref))
  {
  }

  lemma KnownCallFair(sy: Symbols, cv: Conventions, ref: RawRef, wanted: seq<Node>, strategy: string, ids: set<string>)
    requires LookupsWithin(sy, cv, ids) && AllIn(ids, wanted)
    ensures Fair(ref, cv.cap, ids, KnownCallEdges(sy, cv, ref, wanted, strategy))
  {
    if wanted == [] {
      FallbackWithin(sy, cv, ref.targetName, ids);
      WeakFair(ref, FallbackCandidates(sy, ref.targetName), cv.cap, ids);
    } else if SharesOnlyName(ref, strategy) {
      DemotedFair(ref, wanted, strategy, cv.cap, ids);
    } else {
      CappedFair(ref, wanted, INFERRED, strategy, cv.cap, ids);
    }
  }

  lemma CallFair(sy: Symbols, cv: Conventions, ref: RawRef, ids: set<string>)
    requires LookupsWithin(sy, cv, ids) && KindOf(ref.rtype) == Calls
    ensures Fair(ref, cv.cap, ids + NeededIds(sy, cv, ref), CallEdges(sy, cv, ref))
  {
    var (wanted, strategy) := NarrowCall(sy, ref);
    assert AllIn(ids, NarrowCall(sy, ref).0);
    if ref.refFile !in cv.skipFiles {
      if strategy == EXTERNAL_RECEIVER {
        ExternalFair(cv, ref, ids);
      } else {
        KnownCallFair(sy, cv, ref, wanted, strategy, ids);
        FairIn(ref, cv.cap, ids, NeededIds(sy, cv, ref), CallEdges(sy, cv, ref));
      }
    }
  }

  ghost function NeededIds(sy: Symbols, cv: Conventions, ref: RawRef): set<string> {
    if Needed(sy, cv, ref).Some? then {Needed(sy, cv, ref).value.1.id} else {}
  }

  lemma TypesFair(sy: Symbols, cv: Conventions, ref: RawRef, ids: set<string>)
    requires LookupsWithin(sy, cv, ids)
    ensures Fair(ref, cv.cap, ids, TypeEdges(sy, cv, ref))
  {
    var h := NarrowType(sy, ref);
    CappedFair(ref, h.0, if h.1 != "name" && h.1 != "none" then EXTRACTED else INFERRED, h.1, cv.cap, ids);
  }

  lemma FilesFair(sy: Symbols, cv: Conventions, ref: RawRef, ids: set<string>)
    requires LookupsWithin(sy, cv, ids)
    ensures Fair(ref, cv.cap, ids, FileEdges(sy, cv, ref))
  {
    var h := FileHits(sy, cv, ref);
    assert AllIn(ids, Bucket(sy.ix.filesByBasename, ref.targetName));
    CappedFair(ref, h.0, EXTRACTED, h.1, cv.cap, ids);
  }

  lemma HandlersFair(sy: Symbols, cv: Conventions, ref: RawRef, ids: set<string>)
    requires LookupsWithin(sy, cv, ids)
    ensures Fair(ref, cv.cap, ids, HandlerEdges(sy, cv, ref))
  {
    var h := HandlerHits(sy, cv, ref);
    CappedFair(ref, h.0, if ref.targetName in cv.classByFqn then EXTRACTED else INFERRED, h.1, cv.cap, ids);
  }

  lemma FieldsFair(sy: Symbols, cv: Conventions, ref: RawRef, ids: set<string>)
    requires LookupsWithin(sy, cv, ids)
    ensures Fair(ref, cv.cap, ids, FieldEdges(sy, cv, ref))
  {
    var h := FieldHits(sy, ref);
    CappedFair(ref, h.0, EXTRACTED, h.1, cv.cap, ids);
  }

  lemma HintedFair(sy: Symbols, cv: Conventions, ref: RawRef, ids: set<string>)
    requires LookupsWithin(sy, cv, ids)
    ensures Fair(ref, cv.cap, ids, HintedEdges(sy, cv, ref))
  {
    assert AllIn(ids, Bucket(sy.ix.byName, ref.targetName));
    CappedFair(ref, HintedHits(sy, ref), INFERRED, "kind_hint", cv.cap, ids);
  }

  lemma ApiFair(cv: Conventions, ref: RawRef, ids: set<string>)
    requires AllIn(ids, cv.matchEndpoints(ref))
    ensures Fair(ref, cv.cap, ids + (if cv.matchEndpoints(ref) == [] then {cv.endpointFor(ref).id} else {}),
                 ApiEdges(cv, ref))
  {
    if cv.matchEndpoints(ref) != [] {
      NameTierStarts("api_match");
      FanOutFair(ref, cv.matchEndpoints(ref), EXTRACTED, "api_match", ref.rtype, cv.cap, ids);
    }
  }

  /** Every reference keeps to its own source, to known nodes or the one it synthesizes, and to the cap. */
  lemma EdgesAreFair(sy: Symbols, cv: Conventions, ref: RawRef, ids: set<string>)
    requires LookupsWithin(sy, cv, ids)
    ensures Fair(ref, cv.cap, ids + NeededIds(sy, cv, ref), EdgesFor(sy, cv, ref))
  {
    var more := NeededIds(sy, cv, ref);
    match KindOf(ref.rtype)
    case Calls => CallFair(sy, cv, ref, ids);
    case CallsApi => assert AllIn(ids, cv.matchEndpoints(ref)); ApiFair(cv, ref, ids);
    case Annotates =>
    case Events =>
    case Policies =>
    case NamesType => TypesFair(sy, cv, ref, ids); FairIn(ref, cv.cap, ids, more, TypeEdges(sy, cv, ref));
    case NamesFile => FilesFair(sy, cv, ref, ids); FairIn(ref, cv.cap, ids, more, FileEdges(sy, cv, ref));
    case HandledBy => HandlersFair(sy, cv, ref, ids); FairIn(ref, cv.cap, ids, more, HandlerEdges(sy, cv, ref));
    case TouchesField => FieldsFair(sy, cv, ref, ids); FairIn(ref, cv.cap, ids, more, FieldEdges(sy, cv, ref));
    case Other => HintedFair(sy, cv, ref, ids); FairIn(ref, cv.cap, ids, more, HintedEdges(sy, cv, ref));
  }

  lemma KnownCallSound(sy: Symbols, cv: Conventions, ref: RawRef, wanted: seq<Node>, strategy: string, e: Edge)
    requires e in KnownCallEdges(sy, cv, ref, wanted, strategy)
    ensures e.etype == WEAK || e.etype == ref.rtype
    ensures e.etype != WEAK ==> !SharesOnlyName(ref, strategy) && exists n :: n in wanted && n.id == e.dst
  {
    WeakTypes(ref, cv.cap, wanted, FallbackCandidates(sy, ref.targetName), strategy);
    if wanted != [] && !SharesOnlyName(ref, strategy) {
      FanOutTargets(ref, wanted, e);
    }
  }

  /** A CALLS edge goes to a callable of the called name, and none is drawn for a bare name on an unknown receiver. */
  lemma CallEdgesAreSound(sy: Symbols, cv: Conventions, nodes: seq<Node>, ref: RawRef, e: Edge)
    requires Built(sy.ix, nodes) && ref.rtype == "CALLS" && e in CallEdges(sy, cv, ref)
    ensures e.etype == "CALLS" ==>
      !CallsUnknownReceiver(sy, cv, ref) && exists n :: CandidateFor(nodes, ref.targetName, n) && n.id == e.dst
    ensures e.etype == "CALLS" || e.etype == "CALLS_EXTERNAL" || e.etype == WEAK
  {
    var (wanted, strategy) := NarrowCall(sy, ref);
    if strategy != EXTERNAL_RECEIVER {
      NarrowCallIsSound(sy, nodes, ref);
      KnownCallSound(sy, cv, ref, wanted, strategy, e);
    }
  }

  lemma WeakTypes(ref: RawRef, cap: nat, wanted: seq<Node>, found: seq<Node>, strategy: string)
    ensures forall e :: e in WeakEdges(ref, found) || e in DemotedEdges(cap, ref, wanted, strategy) ==> e.etype == WEAK
  {
  }

  lemma FanOutTargets(ref: RawRef, wanted: seq<Node>, e: Edge)
    requires exists c, s, t :: e in FanOut(ref, wanted, c, s, t)
    ensures exists n :: n in wanted && n.id == e.dst
  {
    var c, s, t :| e in FanOut(ref, wanted, c, s, t);
    var i :| 0 <= i < |wanted| && FanOut(ref, wanted, c, s, t)[i] == e;
    assert wanted[i] in wanted;
  }
}
