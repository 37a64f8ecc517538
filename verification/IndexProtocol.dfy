/** Concurrent index runs over one namespace: lock, status, checkpoint and graph, with failures and kills anywhere. */
module IndexProtocol {
  import opened GraphModel
  import opened NamespaceLock
  import opened Checkpoint
  import opened FileContents

  /** The stored graph: what finished ingests made of it, or torn by one in progress. */
  datatype Graph = Settled(contents: Contents) | Torn

  /** What a run does while it holds the lock. `got` are the batches read back from the checkpoint, and `next` is what
      the ingest will have made of the graph. */
  datatype Work =
    | Acquired
    | Decided(baseline: Option<string>)
    | Marked(baseline: Option<string>)
    | Extracting(baseline: Option<string>)
    | Reassembled(baseline: Option<string>, got: seq<Tree>)
    | Ingesting(wiped: bool, next: Graph)
    | Written
    | Ingested
    | Failing
    | Finishing

  datatype Phase =
    | New
    | Stamped(staleBefore: real)
    | Calling(staleBefore: real, calledAt: real)
    | Holding(lockedAt: real, work: Work)
    | Gone

  /** A run of the indexer on a tree with the given hash, `size` files to a batch. */
  datatype Run = Run(tree: string, size: nat, phase: Phase)

  /** `files` is the tree that has a hash, and `extract` what its batches of a size come to. */
  datatype State = State(clock: real, window: real, meta: Meta, graph: Graph, disk: Option<Left<Tree>>,
                         runs: map<string, Run>, files: string -> Tree, extract: (string, nat) -> seq<Tree>)

  datatype Step =
    | Tick(to: real)
    | Arrive(token: string, tree: string, size: nat)
    | Stamp(token: string)
    | Call(token: string)
    | Claim(token: string, replied: bool)
    | Decide(token: string)
    | Proceed(token: string)
    | Open(token: string)
    | Save(token: string, i: nat)
    | Gather(token: string)
    | Begin(token: string)
    | Finish(token: string)
    | Remove(token: string, kept: set<nat>, listed: bool)
    | Clear(token: string)
    | Publish(token: string)
    | Raise(token: string)
    | Report(token: string, stored: bool)
    | Release(token: string, stored: bool)
    | Kill(token: string)

  function PhaseOf(s: State, t: string): Phase { if t in s.runs then s.runs[t].phase else Gone }

  predicate Doing(s: State, t: string, w: Work) { PhaseOf(s, t).Holding? && PhaseOf(s, t).work == w }

  /** The extraction of the run's own tree. */
  function Source(s: State, t: string): seq<Tree>
    requires t in s.runs
  {
    s.extract(s.runs[t].tree, s.runs[t].size)
  }

  /** The batches the run ends up with when it opens this checkpoint. */
  function Taken(s: State, t: string, left: Option<Left<Tree>>): seq<Tree>
    requires t in s.runs
  {
    TakenOver(left, Source(s, t), s.runs[t].size)
  }

  function Goal(s: State, t: string): Tree
    requires t in s.runs
  {
    s.files(s.runs[t].tree)
  }

  /** Without a baseline the graph is wiped; with one it is patched by the hashes stored in it. */
  function Outcome(g: Graph, baseline: Option<string>, tree: Tree, got: seq<Tree>): Graph {
    if baseline.None? then Settled(IngestOf(map[], tree, got))
    else if g.Settled? then Settled(IngestOf(g.contents, tree, got))
    else Torn
  }

  function Moved(s: State, t: string, p: Phase): State
    requires t in s.runs
  {
    s.(runs := s.runs[t := s.runs[t].(phase := p)])
  }

  function Working(s: State, t: string, w: Work): State
    requires t in s.runs && s.runs[t].phase.Holding?
  {
    Moved(s, t, s.runs[t].phase.(work := w))
  }

  /** The lock claim commits or not in one statement; a lost reply leaves the run gone, with or without the lock. */
  function DoClaim(s: State, t: string, replied: bool): State
    requires t in s.runs && s.runs[t].phase.Calling?
  {
    var p := s.runs[t].phase;
    var after := s.(meta := Claimed(s.meta, t, p.calledAt, p.staleBefore));
    Moved(after, t, if Claimable(s.meta, p.staleBefore) && replied then Holding(p.calledAt, Acquired) else Gone)
  }

  /** One step of the run that holds the lock. A step that is not enabled changes nothing. */
  function DoWork(s: State, step: Step, t: string, w: Work): State
    requires t in s.runs && s.runs[t].phase.Holding? && s.runs[t].phase.work == w
  {
    var tree, size, src := s.runs[t].tree, s.runs[t].size, Source(s, t);
    match step
    case Decide(_) => if w.Acquired? then Working(s, t, Decided(Baseline(s.meta))) else s
    case Proceed(_) =>
      if !w.Decided? then s
      else if w.baseline == Some(tree) then Working(s, t, Finishing)
      else Working(s.(meta := s.meta.(status := Indexing)), t, Marked(w.baseline))
    case Open(_) => if w.Marked? then Working(s.(disk := Opened(s.disk, |src|, size)), t, Extracting(w.baseline)) else s
    case Save(_, i) => if w.Extracting? then s.(disk := Saved(s.disk, i, src)) else s
    case Gather(_) =>
      if w.Extracting? && Filled(s.disk, |src|) then Working(s, t, Reassembled(w.baseline, Collected(s.disk, |src|)))
        else s
    case Begin(_) =>
      if w.Reassembled?
      then Working(s.(graph := Torn), t, Ingesting(w.baseline.None?, Outcome(s.graph, w.baseline, Goal(s, t), w.got)))
      else s
    case Finish(_) => if w.Ingesting? then Working(s.(graph := w.next), t, Written) else s
    case Remove(_, kept, listed) =>
      if w.Written? || (w.Marked? && !Fits(s.disk, |src|, size)) then s.(disk := Thinned(s.disk, kept, listed)) else s
    case Clear(_) => if w.Written? then Working(s, t, Ingested) else s
    case Publish(_) =>
      if w.Ingested? then Working(s.(meta := s.meta.(status := Ready, hash := Some(tree))), t, Finishing) else s
    case Raise(_) => if w.Finishing? then s else Working(s, t, Failing)
    case Report(_, stored) =>
      if w.Failing? then Working(if stored then s.(meta := s.meta.(status := Failed)) else s, t, Finishing) else s
    case Release(_, stored) =>
      if w.Finishing? then Moved(if stored then s.(meta := Released(s.meta, t)) else s, t, Gone) else s
    case _ => s
  }

  /** What an ingest starts from: the stored graph of a ready namespace, or nothing. */
  function Base(m: Meta, g: Graph): Contents {
    if Baseline(m).Some? && g.Settled? then g.contents else map[]
  }

  /** A graph that ingests have finished with. */
  ghost predicate Whole(g: Graph) { g.Settled? && Anchored(g.contents) }

  lemma OutcomeIff(m: Meta, g: Graph, tree: Tree, got: seq<Tree>)
    requires m.status == Ready ==> m.hash.Some? && Whole(g)
    ensures Outcome(g, Baseline(m), tree, got) == Settled(Image(tree)) <==> ComesOutRight(Base(m, g), tree, got)
  {
    IngestIsImageIff(Base(m, g), tree, got);
  }

  function Apply(s: State, step: Step): State {
    match step
    case Tick(to) => if s.clock <= to then s.(clock := to) else s
    case Arrive(t, tree, size) => if t in s.runs then s else s.(runs := s.runs[t := Run(tree, size, New)])
    case Stamp(t) => if PhaseOf(s, t).New? then Moved(s, t, Stamped(s.clock - s.window)) else s
    case Call(t) => if PhaseOf(s, t).Stamped? then Moved(s, t, Calling(PhaseOf(s, t).staleBefore, s.clock)) else s
    case Claim(t, replied) => if PhaseOf(s, t).Calling? then DoClaim(s, t, replied) else s
    case Kill(t) => if t in s.runs then Moved(s, t, Gone) else s
    case _ => if PhaseOf(s, step.token).Holding? then DoWork(s, step, step.token, PhaseOf(s, step.token).work) else s
  }

  function After(s: State, steps: seq<Step>): State {
    if steps == [] then s else Apply(After(s, steps[..|steps| - 1]), steps[|steps| - 1])
  }

  /** No holder outlasts the stale window, counted from the time it recorded in the lock. */
  ghost predicate Timely(s: State) {
    forall t {:trigger PhaseOf(s, t)} :: PhaseOf(s, t).Holding? ==> s.clock <= PhaseOf(s, t).lockedAt + s.window
  }

  ghost predicate TimelyThroughout(s: State, steps: seq<Step>) {
    forall n :: 0 <= n <= |steps| ==> Timely(After(s, steps[..n]))
  }

  ghost predicate Exclusive(s: State) {
    forall t, u :: PhaseOf(s, t).Holding? && PhaseOf(s, u).Holding? ==> t == u
  }

  /** Status "ready" means that the stored graph is of the tree with the stored hash, file by file. */
  ghost predicate ReadyIsComplete(s: State) {
    s.meta.status == Ready ==> s.meta.hash.Some? && s.graph == Settled(Image(s.files(s.meta.hash.value)))
  }

  /** A namespace nobody has locked yet, or one a finished protocol left behind; the checkpoint may hold anything. */
  ghost predicate Initial(s: State) { s.runs == map[] && ReadyIsComplete(s) }

  // ---- one holder at a time -------------------------------------------------------

  /** From the mark to the publication the status is "indexing"; what is patched, and what comes of it, is whole. */
  ghost predicate StageOk(s: State, w: Work) {
    match w
    case Decided(b) => b.Some? ==> Whole(s.graph)
    case Marked(b) => s.meta.status == Indexing && (b.Some? ==> Whole(s.graph))
    case Extracting(b) => s.meta.status == Indexing && (b.Some? ==> Whole(s.graph))
    case Reassembled(b, _) => s.meta.status == Indexing && (b.Some? ==> Whole(s.graph))
    case Ingesting(_, next) => s.meta.status == Indexing && Whole(next)
    case Written => s.meta.status == Indexing && Whole(s.graph)
    case Ingested => s.meta.status == Indexing && Whole(s.graph)
    case _ => true
  }

  /** The run's own part of the invariant. */
  ghost predicate RunOk(s: State, t: string) {
    match PhaseOf(s, t)
    case Stamped(sb) => sb + s.window <= s.clock
    case Calling(sb, _) => sb + s.window <= s.clock
    case Holding(at, w) => s.meta.lockToken == Some(t) && s.meta.lockedAt == Some(at) && StageOk(s, w)
    case _ => true
  }

  ghost predicate Inv(s: State) {
    (s.meta.status == Ready ==> s.meta.hash.Some? && Whole(s.graph)) && forall t :: RunOk(s, t)
  }

  lemma InvIsExclusive(s: State)
    requires Inv(s)
    ensures Exclusive(s)
  {
    forall t, u | PhaseOf(s, t).Holding? && PhaseOf(s, u).Holding? ensures t == u {
      assert RunOk(s, t) && RunOk(s, u);
    }
  }

  /** A claim succeeds only if no run holds the lock: the challenger's cut-off is never later than the holder's
      record. */
  lemma ClaimKeeps(s: State, t: string, replied: bool)
    requires Inv(s) && Timely(s) && PhaseOf(s, t).Calling?
    ensures Inv(DoClaim(s, t, replied))
  {
    var s' := DoClaim(s, t, replied);
    assert RunOk(s, t);
    forall u ensures RunOk(s', u) {
      assert RunOk(s, u);
      if u != t {
        assert PhaseOf(s', u) == PhaseOf(s, u);
      }
    }
  }

  lemma OutcomeIsWhole(g: Graph, baseline: Option<string>, tree: Tree, got: seq<Tree>)
    requires baseline.Some? ==> Whole(g)
    ensures Whole(Outcome(g, baseline, tree, got))
  {
    IngestAnchored(if baseline.None? then map[] else g.contents, tree, got);
  }

  lemma WorkKeeps(s: State, step: Step, t: string)
    requires Inv(s) && PhaseOf(s, t).Holding?
    ensures Inv(DoWork(s, step, t, PhaseOf(s, t).work))
  {
    var w := PhaseOf(s, t).work;
    var s' := DoWork(s, step, t, w);
    assert RunOk(s, t);
    if w.Reassembled? { OutcomeIsWhole(s.graph, w.baseline, Goal(s, t), w.got); }
    forall u ensures RunOk(s', u) {
      assert RunOk(s, u);
      if u != t {
        assert PhaseOf(s', u) == PhaseOf(s, u);
        assert !PhaseOf(s, u).Holding?;
      }
    }
  }

  lemma OthersKeep(s: State, step: Step)
    requires Inv(s) && (step.Tick? || step.Arrive? || step.Stamp? || step.Call? || step.Kill?)
    ensures Inv(Apply(s, step))
  {
    var s' := Apply(s, step);
    forall u ensures RunOk(s', u) {
      assert RunOk(s, u);
    }
  }

  lemma StepKeeps(s: State, step: Step)
    requires Inv(s) && Timely(s)
    ensures Inv(Apply(s, step))
  {
    match step
    case Tick(_) => OthersKeep(s, step);
    case Arrive(_, _, _) => OthersKeep(s, step);
    case Stamp(_) => OthersKeep(s, step);
    case Call(_) => OthersKeep(s, step);
    case Kill(_) => OthersKeep(s, step);
    case Claim(t, replied) => if PhaseOf(s, t).Calling? { ClaimKeeps(s, t, replied); }
    case _ => if PhaseOf(s, step.token).Holding? { WorkKeeps(s, step, step.token); }
  }

  lemma TimelyPrefix(s: State, steps: seq<Step>, n: nat)
    requires TimelyThroughout(s, steps) && n <= |steps|
    ensures TimelyThroughout(s, steps[..n])
  {
    forall k | 0 <= k <= n ensures Timely(After(s, steps[..n][..k])) {
      assert steps[..n][..k] == steps[..k];
    }
  }

  lemma InitialIsInv(s: State)
    requires Initial(s)
    ensures Inv(s)
  {
    if s.meta.status == Ready { ImageIsClean(s.files(s.meta.hash.value)); }
  }

  lemma {:induction false} RunKeeps(s: State, steps: seq<Step>)
    requires Initial(s) && TimelyThroughout(s, steps)
    ensures Inv(After(s, steps)) && Timely(After(s, steps))
  {
    InitialIsInv(s);
    assert steps[..|steps|] == steps;
    if steps != [] {
      TimelyPrefix(s, steps, |steps| - 1);
      RunKeeps(s, steps[..|steps| - 1]);
      StepKeeps(After(s, steps[..|steps| - 1]), steps[|steps| - 1]);
    }
  }

  // ---- what a run remembers -----------------------------------------------------------

  /** Step `k` is the one at which `t` takes the lock. */
  ghost predicate AcquiresAt(s: State, steps: seq<Step>, t: string, k: int) {
    && 0 <= k < |steps| && steps[k] == Claim(t, true)
    && !PhaseOf(After(s, steps[..k]), t).Holding? && PhaseOf(After(s, steps[..k + 1]), t).Holding?
  }

  /** Step `j` is the one at which `t` opens the checkpoint. */
  ghost predicate OpensAt(s: State, steps: seq<Step>, t: string, j: int) {
    && 0 <= j < |steps| && steps[j] == Open(t)
    && PhaseOf(After(s, steps[..j]), t).Holding? && PhaseOf(After(s, steps[..j]), t).work.Marked?
  }

  predicate HasOpened(w: Work) { w.Extracting? || w.Reassembled? || w.Ingesting? || w.Written? || w.Ingested? }

  /** What the ingest of `t` comes to, from the namespace it found and the checkpoint it opened. */
  function Expected(s: State, t: string, at: State, left: Option<Left<Tree>>): Graph
    requires t in s.runs
  {
    Outcome(at.graph, Baseline(at.meta), Goal(s, t), Taken(s, t, left))
  }

  /** How the state of a run that holds the lock depends on the namespace `at` which it took the lock, and on the
      checkpoint it opened. */
  ghost predicate Recalls(s: State, t: string, at: State, left: Option<Left<Tree>>) {
    PhaseOf(s, t).Holding? && match PhaseOf(s, t).work
      case Acquired => s.meta.status == at.meta.status && s.meta.hash == at.meta.hash && s.graph == at.graph
      case Decided(b) => b == Baseline(at.meta) && s.graph == at.graph
      case Marked(b) => b == Baseline(at.meta) && s.graph == at.graph
      case Extracting(b) =>
        && b == Baseline(at.meta) && s.graph == at.graph
        && Fits(s.disk, |Source(s, t)|, s.runs[t].size) && Taken(s, t, s.disk) == Taken(s, t, left)
      case Reassembled(b, got) => b == Baseline(at.meta) && s.graph == at.graph && got == Taken(s, t, left)
      case Ingesting(wiped, next) => (wiped <==> Baseline(at.meta).None?) && next == Expected(s, t, at, left)
      case Written => s.graph == Expected(s, t, at, left)
      case Ingested => s.graph == Expected(s, t, at, left)
      case _ => true
  }

  /** Nothing another run does while `t` holds the lock touches status, hash, graph or checkpoint. */
  lemma OthersLeave(s: State, step: Step, t: string)
    requires Inv(s) && Timely(s) && PhaseOf(s, t).Holding? && (step.Tick? || step.token != t)
    ensures var s' := Apply(s, step);
      && s'.meta.status == s.meta.status && s'.meta.hash == s.meta.hash && s'.graph == s.graph && s'.disk == s.disk
      && t in s'.runs && s'.runs[t] == s.runs[t] && s'.files == s.files && s'.extract == s.extract
  {
    InvIsExclusive(s);
    assert RunOk(s, t);
    match step
    case Claim(u, _) => if PhaseOf(s, u).Calling? { assert RunOk(s, u); }
    case _ =>
  }

  lemma OthersRecall(s: State, step: Step, t: string, at: State, left: Option<Left<Tree>>)
    requires Inv(s) && Timely(s) && Recalls(s, t, at, left)
    requires step.Tick? || step.token != t
    ensures Recalls(Apply(s, step), t, at, left)
  {
    OthersLeave(s, step, t);
  }

  /** Its own steps while it extracts. */
  lemma ExtractingRecalls(s: State, step: Step, t: string, at: State, left: Option<Left<Tree>>)
    requires Recalls(s, t, at, left) && PhaseOf(s, t).work.Extracting? && !step.Tick? && step.token == t
    requires PhaseOf(Apply(s, step), t).Holding?
    ensures Recalls(Apply(s, step), t, at, left)
  {
    var src, size := Source(s, t), s.runs[t].size;
    if step.Save? {
      SavedTakes(s.disk, step.i, src, size);
    } else if step.Gather? && Filled(s.disk, |src|) {
      CollectedIsTaken(s.disk, src, size);
    }
  }

  /** The run's own steps but the opening of the checkpoint. */
  lemma OwnRecall(s: State, step: Step, t: string, at: State, left: Option<Left<Tree>>)
    requires Recalls(s, t, at, left) && !step.Tick? && step.token == t && !step.Open?
    requires PhaseOf(Apply(s, step), t).Holding?
    ensures Recalls(Apply(s, step), t, at, left)
  {
    if PhaseOf(s, t).work.Extracting? { ExtractingRecalls(s, step, t, at, left); }
  }

  lemma OpenRecalls(s: State, t: string, at: State, left: Option<Left<Tree>>)
    requires Recalls(s, t, at, left) && PhaseOf(s, t).work.Marked?
    ensures Recalls(Apply(s, Open(t)), t, at, s.disk)
  {
    OpenedTakes(s.disk, Source(s, t), s.runs[t].size);
  }

  lemma TakesLock(s: State, step: Step, t: string, left: Option<Left<Tree>>)
    requires !PhaseOf(s, t).Holding? && PhaseOf(Apply(s, step), t).Holding?
    ensures step == Claim(t, true) && Recalls(Apply(s, step), t, s, left) && PhaseOf(Apply(s, step), t).work == Acquired
  {
  }

  /** Whoever holds the lock took it once, and still goes by what it found then and when it opened the checkpoint. */
  lemma {:induction false} Recall(s: State, steps: seq<Step>, t: string) returns (k: nat, j: nat)
    requires Initial(s) && TimelyThroughout(s, steps) && PhaseOf(After(s, steps), t).Holding?
    ensures AcquiresAt(s, steps, t, k) && j <= |steps|
    ensures HasOpened(PhaseOf(After(s, steps), t).work) ==> OpensAt(s, steps, t, j) && k < j
    ensures Recalls(After(s, steps), t, After(s, steps[..k]), After(s, steps[..j]).disk)
    decreases |steps|
  {
    var init, last := steps[..|steps| - 1], steps[|steps| - 1];
    var before := After(s, init);
    assert steps[..|steps|] == steps;
    TimelyPrefix(s, steps, |steps| - 1);
    RunKeeps(s, init);
    if !PhaseOf(before, t).Holding? {
      k, j := |init|, 0;
      TakesLock(before, last, t, After(s, steps[..0]).disk);
    } else {
      k, j := Recall(s, init, t);
      Prefixes(steps, k);
      assert init[..j] == steps[..j];
      if last == Open(t) && PhaseOf(before, t).work.Marked? {
        OpenRecalls(before, t, After(s, steps[..k]), After(s, steps[..j]).disk);
        j := |init|;
      } else {
        RecallNext(before, last, t, After(s, steps[..k]), After(s, steps[..j]).disk);
        if HasOpened(PhaseOf(before, t).work) { Prefixes(steps, j); }
      }
    }
  }

  lemma Prefixes(steps: seq<Step>, k: nat)
    requires k < |steps| - 1
    ensures steps[..|steps| - 1][..k] == steps[..k] && steps[..|steps| - 1][..k + 1] == steps[..k + 1]
    ensures steps[..|steps| - 1][k] == steps[k]
  {
  }

  lemma RecallNext(s: State, step: Step, t: string, at: State, left: Option<Left<Tree>>)
    requires Inv(s) && Timely(s) && Recalls(s, t, at, left) && PhaseOf(Apply(s, step), t).Holding?
    requires !(step == Open(t) && PhaseOf(s, t).work.Marked?)
    ensures Recalls(Apply(s, step), t, at, left)
    ensures HasOpened(PhaseOf(Apply(s, step), t).work) ==> HasOpened(PhaseOf(s, t).work)
  {
    if step.Tick? || step.token != t {
      OthersRecall(s, step, t, at, left);
    } else if !step.Open? {
      OwnRecall(s, step, t, at, left);
    }
  }

  /** Over every run of any number of indexers, with failures and kills at any step: as long as no holder outlasts the
      stale window, at most one run is between acquire and release. */
  lemma RunsAreExclusive(s: State, steps: seq<Step>)
    requires Initial(s) && TimelyThroughout(s, steps)
    ensures Exclusive(After(s, steps))
  {
    RunKeeps(s, steps);
    InvIsExclusive(After(s, steps));
  }

  // ---- a holder that outlasts the window ------------------------------------------

  /** A newcomer shares the lock with its holder exactly when the holder's record is older than the window. */
  lemma OutlastingIff(s: State, t: string, u: string, tree: string, size: nat)
    requires Inv(s) && PhaseOf(s, t).Holding? && u !in s.runs
    ensures !Exclusive(After(s, HoldSteps(u, tree, size))) <==> PhaseOf(s, t).lockedAt < s.clock - s.window
  {
    assert RunOk(s, t);
    InvIsExclusive(s);
    var s' := Contends(s, u, tree, size);
    if Claimable(s.meta, s.clock - s.window) {
      assert PhaseOf(s', t).Holding? && PhaseOf(s', u).Holding?;
    }
  }

  lemma OutlastingBreaks() returns (s: State, steps: seq<Step>)
    ensures Initial(s) && !Exclusive(After(s, steps))
  {
    s := Untouched();
    var a, b := HoldSteps("a", "x", 1), HoldSteps("b", "y", 1);
    steps := a + [Tick(20.0)] + b;
    assert RunOk(s, "a");
    var s1 := Contends(s, "a", "x", 1);
    var s2 := Apply(s1, Tick(20.0));
    AfterNext(s, a, Tick(20.0));
    AfterConcat(s, a + [Tick(20.0)], b);
    assert Inv(s2) by {
      forall t ensures RunOk(s2, t) { assert PhaseOf(s1, t) == PhaseOf(s2, t); }
    }
    OutlastingIff(s2, "a", "b", "y", 1);
  }

  /** A namespace and a checkpoint directory nobody has used, where a tree is one file that shows its hash. */
  function Untouched(): State {
    State(10.0, 5.0, Meta(None, None, Absent, None), Torn, None, map[], h => OneFile(h), (h, size) => [OneFile(h)])
  }

  function OneFile(h: string): Tree { map["f" := h] }

  /** A run that arrives, reads the clock and claims the lock. */
  function HoldSteps(t: string, tree: string, size: nat): seq<Step> {
    [Arrive(t, tree, size), Stamp(t), Call(t), Claim(t, true)]
  }

  lemma AfterNext(s: State, steps: seq<Step>, step: Step)
    ensures After(s, steps + [step]) == Apply(After(s, steps), step)
  {
    assert (steps + [step])[..|steps|] == steps;
  }

  /** What becomes of a newcomer's claim. */
  lemma Contends(s: State, t: string, tree: string, size: nat) returns (s': State)
    requires t !in s.runs
    ensures s' == After(s, HoldSteps(t, tree, size))
    ensures PhaseOf(s', t) == if Claimable(s.meta, s.clock - s.window) then Holding(s.clock, Acquired) else Gone
    ensures s' == s.(meta := Claimed(s.meta, t, s.clock, s.clock - s.window), runs := s'.runs)
    ensures forall u :: u != t ==> PhaseOf(s', u) == PhaseOf(s, u)
    ensures s'.runs.Keys == s.runs.Keys + {t} && s'.runs[t].tree == tree && s'.runs[t].size == size
  {
    var steps := [Arrive(t, tree, size)];
    AfterNext(s, [], steps[0]);
    assert [] + steps == steps;
    AfterNext(s, steps, Stamp(t));
    AfterNext(s, steps + [Stamp(t)], Call(t));
    AfterNext(s, steps + [Stamp(t)] + [Call(t)], Claim(t, true));
    assert HoldSteps(t, tree, size) == steps + [Stamp(t)] + [Call(t)] + [Claim(t, true)];
    s' := After(s, HoldSteps(t, tree, size));
  }

  lemma {:induction false} AfterConcat(s: State, xs: seq<Step>, ys: seq<Step>)
    ensures After(s, xs + ys) == After(After(s, xs), ys)
    decreases |ys|
  {
    if ys == [] {
      assert xs + ys == xs;
    } else {
      var init, last := ys[..|ys| - 1], ys[|ys| - 1];
      AfterConcat(s, xs, init);
      AfterNext(s, xs + init, last);
      assert xs + init + [last] == xs + ys;
    }
  }
}
