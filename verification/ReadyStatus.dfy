/** What status "ready" vouches for, over all runs of the index protocol, with checkpoints left by other runs. */
module ReadyStatus {
  import opened GraphModel
  import opened NamespaceLock
  import opened Checkpoint
  import opened FileContents
  import opened IndexProtocol

  // ---- a run goes through its stages once ---------------------------------------------

  function Rank(p: Phase): nat {
    match p
    case New => 0
    case Stamped(_) => 1
    case Calling(_, _) => 2
    case Holding(_, Acquired) => 3
    case Holding(_, Decided(_)) => 4
    case Holding(_, Marked(_)) => 5
    case _ => 6
  }

  /** The run works on the same tree. */
  ghost predicate SameTask(s: State, s': State, t: string) {
    && t in s.runs && t in s'.runs && s'.files == s.files && s'.extract == s.extract
    && s'.runs[t].tree == s.runs[t].tree && s'.runs[t].size == s.runs[t].size
  }

  lemma RankNext(s: State, step: Step, t: string)
    requires t in s.runs
    ensures t in Apply(s, step).runs && Apply(s, step).extract == s.extract && Apply(s, step).files == s.files
    ensures Apply(s, step).runs[t] == s.runs[t].(phase := Apply(s, step).runs[t].phase)
    ensures Rank(PhaseOf(s, t)) <= Rank(PhaseOf(Apply(s, step), t))
  {
  }

  lemma {:induction false} RankGrows(s: State, steps: seq<Step>, t: string, j: nat)
    requires j <= |steps| && t in After(s, steps[..j]).runs
    ensures t in After(s, steps).runs && Rank(PhaseOf(After(s, steps[..j]), t)) <= Rank(PhaseOf(After(s, steps), t))
    ensures SameTask(After(s, steps[..j]), After(s, steps), t)
    decreases |steps|
  {
    if j == |steps| {
      assert steps[..j] == steps;
    } else {
      var init := steps[..|steps| - 1];
      assert init[..j] == steps[..j];
      RankGrows(s, init, t, j);
      RankNext(After(s, init), steps[|steps| - 1], t);
    }
  }

  /** A run takes the lock once. */
  lemma AcquiresOnce(s: State, steps: seq<Step>, t: string, i: int, k: int)
    requires AcquiresAt(s, steps, t, i) && AcquiresAt(s, steps, t, k)
    ensures i == k
  {
    if i < k { HeldIsPast(s, steps, t, i, k); } else if k < i { HeldIsPast(s, steps, t, k, i); }
  }

  lemma HeldIsPast(s: State, steps: seq<Step>, t: string, i: int, k: int)
    requires AcquiresAt(s, steps, t, i) && i < k <= |steps|
    ensures Rank(PhaseOf(After(s, steps[..k]), t)) > 2
    ensures k < |steps| ==> !AcquiresAt(s, steps, t, k)
  {
    assert steps[..k][..i + 1] == steps[..i + 1];
    RankGrows(s, steps[..k], t, i + 1);
    if k < |steps| {
      assert steps[..k + 1] == steps[..k] + [steps[k]];
      AfterNext(s, steps[..k], steps[k]);
    }
  }

  /** A run opens the checkpoint once. */
  lemma OpensOnce(s: State, steps: seq<Step>, t: string, i: int, j: int)
    requires OpensAt(s, steps, t, i) && OpensAt(s, steps, t, j)
    ensures i == j
  {
    if i < j { OpenedIsPast(s, steps, t, i, j); } else if j < i { OpenedIsPast(s, steps, t, j, i); }
  }

  lemma OpenedIsPast(s: State, steps: seq<Step>, t: string, i: int, j: int)
    requires OpensAt(s, steps, t, i) && i < j <= |steps|
    ensures Rank(PhaseOf(After(s, steps[..j]), t)) == 6
  {
    assert steps[..j][..i + 1] == steps[..i] + [Open(t)];
    AfterNext(s, steps[..i], Open(t));
    RankGrows(s, steps[..j], t, i + 1);
  }

  // ---- one publication --------------------------------------------------------------------

  /** From the namespace as `t` took the lock at step `k` and the checkpoint it opened at step `j`, every file comes out
      as its tree has it. */
  ghost predicate IngestsRight(s: State, steps: seq<Step>, t: string, k: int, j: int)
    requires AcquiresAt(s, steps, t, k) && OpensAt(s, steps, t, j)
  {
    var at, opener := After(s, steps[..k]), After(s, steps[..j]);
    ComesOutRight(Base(at.meta, at.graph), Goal(opener, t), Taken(opener, t, opener.disk))
  }

  lemma ExpectedIff(s: State, steps: seq<Step>, t: string, k: int, j: int)
    requires AcquiresAt(s, steps, t, k) && OpensAt(s, steps, t, j) && Inv(After(s, steps[..k]))
    ensures var end, at := After(s, steps), After(s, steps[..k]);
      && t in end.runs
      && (Expected(end, t, at, After(s, steps[..j]).disk) == Settled(Image(Goal(end, t))) <==>
        IngestsRight(s, steps, t, k, j))
  {
    var at, opener := After(s, steps[..k]), After(s, steps[..j]);
    RankGrows(s, steps, t, j);
    OutcomeIff(at.meta, at.graph, Goal(opener, t), Taken(opener, t, opener.disk));
  }

  lemma PublishedIff(s: State, t: string)
    requires Doing(s, t, Ingested)
    ensures var end := Apply(s, Publish(t));
      && end.meta.status == Ready && end.meta.hash == Some(end.runs[t].tree)
      && (ReadyIsComplete(end) <==> s.graph == Settled(Image(Goal(s, t))))
  {
  }

  /** A publication vouches exactly when the ingest comes out right. */
  lemma PublishVouchesIff(s: State, steps: seq<Step>, t: string) returns (k: nat, j: nat)
    requires Initial(s) && TimelyThroughout(s, steps) && Doing(After(s, steps), t, Ingested)
    ensures AcquiresAt(s, steps, t, k) && OpensAt(s, steps, t, j) && k < j
    ensures var end := Apply(After(s, steps), Publish(t));
      && end.meta.status == Ready && end.meta.hash == Some(end.runs[t].tree)
      && (ReadyIsComplete(end) <==> IngestsRight(s, steps, t, k, j))
  {
    k, j := Recall(s, steps, t);
    TimelyPrefix(s, steps, k);
    RunKeeps(s, steps[..k]);
    ExpectedIff(s, steps, t, k, j);
    PublishedIff(After(s, steps), t);
  }

  /** An ingest wipes exactly when the namespace was not ready at the moment its run took the lock, and what it is about
      to leave is the tree's exactly when it comes out right. */
  lemma WipesUnlessReady(s: State, steps: seq<Step>, t: string) returns (k: nat, j: nat)
    requires Initial(s) && TimelyThroughout(s, steps)
    requires PhaseOf(After(s, steps), t).Holding? && PhaseOf(After(s, steps), t).work.Ingesting?
    ensures AcquiresAt(s, steps, t, k) && OpensAt(s, steps, t, j) && k < j
    ensures var w := PhaseOf(After(s, steps), t).work;
      && (w.wiped <==> After(s, steps[..k]).meta.status != Ready)
      && (w.next == Settled(Image(Goal(After(s, steps), t))) <==> IngestsRight(s, steps, t, k, j))
  {
    k, j := Recall(s, steps, t);
    TimelyPrefix(s, steps, k);
    RunKeeps(s, steps[..k]);
    ExpectedIff(s, steps, t, k, j);
  }

  // ---- every publication ------------------------------------------------------------------

  /** Any step but a publication keeps what "ready" vouches for. */
  lemma StillVouches(s: State, step: Step)
    requires Inv(s) && !(step.Publish? && Doing(s, step.token, Ingested))
    ensures ReadyIsComplete(s) ==> ReadyIsComplete(Apply(s, step))
  {
    if !step.Tick? { assert RunOk(s, step.token); }
  }

  ghost predicate PublishesAt(s: State, steps: seq<Step>, t: string, n: int) {
    0 <= n < |steps| && steps[n] == Publish(t) && Doing(After(s, steps[..n]), t, Ingested)
  }

  ghost predicate PublishersIngestRight(s: State, steps: seq<Step>) {
    forall t, k, j, n :: AcquiresAt(s, steps, t, k) && OpensAt(s, steps, t, j) && PublishesAt(s, steps, t, n) ==>
      IngestsRight(s, steps, t, k, j)
  }

  ghost predicate VouchesThroughout(s: State, steps: seq<Step>) {
    forall n :: 0 <= n <= |steps| ==> ReadyIsComplete(After(s, steps[..n]))
  }

  /** One publication among the steps. */
  lemma PublicationIff(s: State, steps: seq<Step>, t: string, n: nat) returns (k: nat, j: nat)
    requires Initial(s) && TimelyThroughout(s, steps) && PublishesAt(s, steps, t, n)
    ensures k < j < n && AcquiresAt(s, steps, t, k) && OpensAt(s, steps, t, j)
    ensures ReadyIsComplete(After(s, steps[..n + 1])) <==> IngestsRight(s, steps, t, k, j)
  {
    var past := steps[..n];
    TimelyPrefix(s, steps, n);
    k, j := PublishVouchesIff(s, past, t);
    EarlierIsSame(s, steps, n, t, k, j);
    OneStep(s, steps, n);
  }

  lemma OneStep(s: State, steps: seq<Step>, n: nat)
    requires n < |steps|
    ensures After(s, steps[..n + 1]) == Apply(After(s, steps[..n]), steps[n])
  {
    assert steps[..n + 1][..n] == steps[..n];
  }

  lemma EarlierIsSame(s: State, steps: seq<Step>, n: nat, t: string, k: int, j: int)
    requires n <= |steps| && AcquiresAt(s, steps[..n], t, k) && OpensAt(s, steps[..n], t, j)
    ensures AcquiresAt(s, steps, t, k) && OpensAt(s, steps, t, j)
    ensures IngestsRight(s, steps[..n], t, k, j) <==> IngestsRight(s, steps, t, k, j)
  {
    assert steps[..n][..k] == steps[..k] && steps[..n][..k + 1] == steps[..k + 1] && steps[..n][..j] == steps[..j];
  }

  lemma {:induction false} VouchesIfRight(s: State, steps: seq<Step>, n: nat)
    requires Initial(s) && TimelyThroughout(s, steps) && PublishersIngestRight(s, steps) && n <= |steps|
    ensures ReadyIsComplete(After(s, steps[..n]))
    decreases n
  {
    if n > 0 {
      var past, step := steps[..n - 1], steps[n - 1];
      assert steps[..n] == past + [step];
      AfterNext(s, past, step);
      VouchesIfRight(s, steps, n - 1);
      TimelyPrefix(s, steps, n - 1);
      RunKeeps(s, past);
      if step.Publish? && Doing(After(s, past), step.token, Ingested) {
        var k, j := PublicationIff(s, steps, step.token, n - 1);
        assert PublishesAt(s, steps, step.token, n - 1);
      } else {
        StillVouches(After(s, past), step);
      }
    }
  }

  /** "Ready" vouches for the stored graph at every moment exactly when the ingest of every run that publishes comes out
      right from what the run found. */
  lemma VouchesThroughoutIff(s: State, steps: seq<Step>)
    requires Initial(s) && TimelyThroughout(s, steps)
    ensures VouchesThroughout(s, steps) <==> PublishersIngestRight(s, steps)
  {
    if PublishersIngestRight(s, steps) {
      forall n | 0 <= n <= |steps| ensures ReadyIsComplete(After(s, steps[..n])) {
        VouchesIfRight(s, steps, n);
      }
    }
    if VouchesThroughout(s, steps) {
      forall t, i, l, n | AcquiresAt(s, steps, t, i) && OpensAt(s, steps, t, l) && PublishesAt(s, steps, t, n)
        ensures IngestsRight(s, steps, t, i, l)
      {
        var k, j := PublicationIff(s, steps, t, n);
        AcquiresOnce(s, steps, t, i, k);
        OpensOnce(s, steps, t, l, j);
      }
    }
  }

  // ---- without checkpoints of other trees ---------------------------------------------------

  /** The batches of a tree make up the tree. */
  ghost predicate Extracts(s: State) {
    forall h, size {:trigger s.extract(h, size)} :: Merged(s.extract(h, size)) == Image(s.files(h))
  }

  /** No run that publishes had opened a checkpoint with a batch of another tree under its own shape. */
  ghost predicate PublishersOpenOwn(s: State, steps: seq<Step>) {
    forall t, j, n :: OpensAt(s, steps, t, j) && PublishesAt(s, steps, t, n) ==> OpensOwn(s, steps, t, j)
  }

  ghost predicate OpensOwn(s: State, steps: seq<Step>, t: string, j: int)
    requires OpensAt(s, steps, t, j)
  {
    var opener := After(s, steps[..j]);
    Truthful(opener.disk, Source(opener, t), opener.runs[t].size)
  }

  lemma {:induction false} SettingsStay(s: State, steps: seq<Step>)
    ensures After(s, steps).files == s.files && After(s, steps).extract == s.extract
  {
    if steps != [] { SettingsStay(s, steps[..|steps| - 1]); }
  }

  lemma OwnIngestsRight(s: State, steps: seq<Step>, t: string, k: int, j: int)
    requires AcquiresAt(s, steps, t, k) && OpensAt(s, steps, t, j) && Extracts(s) && OpensOwn(s, steps, t, j)
    requires ReadyIsComplete(After(s, steps[..k]))
    ensures IngestsRight(s, steps, t, k, j)
  {
    var at, opener := After(s, steps[..k]), After(s, steps[..j]);
    SettingsStay(s, steps[..j]);
    OwnIffTruthful(opener.disk, Source(opener, t), opener.runs[t].size);
    if Baseline(at.meta).Some? { ImageIsClean(at.files(at.meta.hash.value)); }
    OwnComesOutRight(Base(at.meta, at.graph), Goal(opener, t), Source(opener, t));
  }

  lemma {:induction false} VouchesIfOwn(s: State, steps: seq<Step>, n: nat)
    requires Initial(s) && Extracts(s) && TimelyThroughout(s, steps) && PublishersOpenOwn(s, steps) && n <= |steps|
    ensures ReadyIsComplete(After(s, steps[..n]))
    decreases n
  {
    if n > 0 {
      var past, step := steps[..n - 1], steps[n - 1];
      assert steps[..n] == past + [step];
      AfterNext(s, past, step);
      VouchesIfOwn(s, steps, n - 1);
      TimelyPrefix(s, steps, n - 1);
      RunKeeps(s, past);
      if step.Publish? && Doing(After(s, past), step.token, Ingested) {
        var k, j := PublicationIff(s, steps, step.token, n - 1);
        VouchesIfOwn(s, steps, k);
        assert PublishesAt(s, steps, step.token, n - 1);
        OwnIngestsRight(s, steps, step.token, k, j);
      } else {
        StillVouches(After(s, past), step);
      }
    }
  }

  /**
    * Over every run of any number of indexers, with failures and kills at any step: as long as no holder outlasts the
    * stale window, at most one run is between acquire and release; and "ready" vouches for the stored graph if no run
    * publishes that had opened the checkpoint of another tree under its own shape.
    */
  lemma RunsAreSafe(s: State, steps: seq<Step>)
    requires Initial(s) && Extracts(s) && TimelyThroughout(s, steps)
    ensures Exclusive(After(s, steps))
    ensures PublishersOpenOwn(s, steps) ==> ReadyIsComplete(After(s, steps))
  {
    RunsAreExclusive(s, steps);
    if PublishersOpenOwn(s, steps) {
      VouchesIfOwn(s, steps, |steps|);
      assert steps[..|steps|] == steps;
    }
  }

  // ---- a checkpoint that outlives its tree ------------------------------------------------

  /** No time has passed since any lock was taken. */
  ghost predicate Prompt(s: State) {
    0.0 <= s.window && forall t {:trigger PhaseOf(s, t)} ::
      && (PhaseOf(s, t).Calling? ==> PhaseOf(s, t).calledAt == s.clock)
      && (PhaseOf(s, t).Holding? ==> PhaseOf(s, t).lockedAt == s.clock)
  }

  lemma PromptNext(s: State, step: Step)
    requires Prompt(s) && !step.Tick?
    ensures Prompt(Apply(s, step))
  {
    var s' := Apply(s, step);
    forall t ensures PhaseOf(s', t).Calling? ==> PhaseOf(s', t).calledAt == s'.clock {
      assert PhaseOf(s, t) == PhaseOf(s, t);
    }
    forall t ensures PhaseOf(s', t).Holding? ==> PhaseOf(s', t).lockedAt == s'.clock {
      assert PhaseOf(s, t) == PhaseOf(s, t);
    }
  }

  /** The clock stands still. */
  ghost predicate Still(steps: seq<Step>) { forall step: Step :: step in steps ==> !step.Tick? }

  /** While the clock stands still, nobody outlasts the window. */
  lemma {:induction false} PromptIsTimely(s: State, steps: seq<Step>)
    requires Prompt(s) && Still(steps)
    ensures Prompt(After(s, steps)) && TimelyThroughout(s, steps)
    decreases |steps|
  {
    if steps != [] {
      var init := steps[..|steps| - 1];
      PromptIsTimely(s, init);
      PromptNext(After(s, init), steps[|steps| - 1]);
      forall n | 0 <= n <= |steps| ensures Timely(After(s, steps[..n])) {
        assert n <= |init| ==> steps[..n] == init[..n];
        assert n == |steps| ==> steps[..n] == steps;
      }
    }
  }

  /** The run is at `w`, and apart from it, the status, the graph and the checkpoint nothing changed. */
  ghost predicate Came(now: State, x: State, t: string, w: Work) {
    && t in now.runs && Doing(x, t, w) && x.runs.Keys == now.runs.Keys
    && x.runs[t].tree == now.runs[t].tree && x.runs[t].size == now.runs[t].size
    && x.extract == now.extract && x.files == now.files && x.window == now.window && x.clock == now.clock
    && x.meta == now.meta.(status := x.meta.status)
  }

  /** Some steps lead from `s` to `x` while the clock stands still. */
  ghost predicate Leads(s: State, x: State) {
    exists steps :: After(s, steps) == x && Still(steps)
  }

  lemma Then(s: State, x: State, y: State)
    requires Leads(s, x) && Leads(x, y)
    ensures Leads(s, y)
  {
    var first :| After(s, first) == x && Still(first);
    var second :| After(x, second) == y && Still(second);
    AfterConcat(s, first, second);
  }

  lemma Do(s: State, step: Step) returns (x: State)
    requires !step.Tick?
    ensures x == Apply(s, step) && Leads(s, x)
  {
    x := Apply(s, step);
    assert [step][..0] == [];
    assert After(s, [step]) == x;
  }

  lemma Do3(s: State, a: Step, b: Step, c: Step) returns (x: State)
    requires !a.Tick? && !b.Tick? && !c.Tick?
    ensures x == Apply(Apply(Apply(s, a), b), c) && Leads(s, x)
  {
    x := Do(s, a);
    var y := Do(x, b);
    var z := Do(y, c);
    Then(s, x, y);
    Then(s, y, z);
    x := z;
  }

  /** A run without a baseline marks the namespace and opens the checkpoint. */
  lemma GoOpen(s: State, t: string) returns (x: State)
    requires Doing(s, t, Acquired) && Baseline(s.meta).None?
    ensures Leads(s, x) && Came(s, x, t, Extracting(None)) && x.meta.status == Indexing && x.graph == s.graph
    ensures x.disk == Opened(s.disk, |Source(s, t)|, s.runs[t].size)
  {
    x := Do3(s, Decide(t), Proceed(t), Open(t));
  }

  /** The first batch is saved, the next one raises. */
  lemma GoSaveAndRaise(s: State, t: string) returns (x: State)
    requires Doing(s, t, Extracting(None))
    ensures Leads(s, x) && Came(s, x, t, Finishing) && x.meta.status == Failed
      && x.disk == Saved(s.disk, 0, Source(s, t))
  {
    x := Do3(s, Save(t, 0), Raise(t), Report(t, true));
  }

  /** A run that finds its one batch saved reads it back. */
  lemma GoGather(s: State, t: string, got: Tree) returns (x: State)
    requires Doing(s, t, Extracting(None)) && |Source(s, t)| == 1 && s.disk == Some(Left(1, 1, map[0 := got]))
    ensures Leads(s, x) && Came(s, x, t, Reassembled(None, [got]))
  {
    assert Collected(s.disk, 1) == [got];
    x := Do(s, Gather(t));
  }

  lemma GoBegin(s: State, t: string, got: seq<Tree>) returns (x: State)
    requires Doing(s, t, Reassembled(None, got))
    ensures Leads(s, x) && Came(s, x, t, Ingesting(true, Settled(IngestOf(map[], Goal(s, t), got))))
  {
    x := Do(s, Begin(t));
  }

  lemma GoPublish(s: State, t: string, next: Graph) returns (x: State)
    requires Doing(s, t, Ingesting(true, next))
    ensures Leads(s, x) && x.meta.status == Ready && x.meta.hash == Some(s.runs[t].tree)
    ensures x.graph == next && x.files == s.files
  {
    x := Do3(s, Finish(t), Clear(t), Publish(t));
  }

  /** A newcomer takes a free lock. */
  lemma GoHold(s: State, t: string, tree: string) returns (x: State)
    requires t !in s.runs && s.meta.lockedAt.None?
    ensures Leads(s, x) && Doing(x, t, Acquired) && x.runs.Keys == s.runs.Keys + {t} && x.runs[t].tree == tree
    ensures x.runs[t].size == 1 && x == s.(meta := Claimed(s.meta, t, s.clock, s.clock - s.window), runs := x.runs)
  {
    x := Contends(s, t, tree, 1);
    assert Still(HoldSteps(t, tree, 1));
  }

  lemma GoFail(s: State, t: string, got: Tree) returns (x: State)
    requires Doing(s, t, Acquired) && Baseline(s.meta).None? && s.disk == None && s.runs[t].size == 1
    requires Source(s, t) == [got]
    ensures Leads(s, x) && Came(s, x, t, Finishing) && x.meta.status == Failed
      && x.disk == Some(Left(1, 1, map[0 := got]))
  {
    var y := GoOpen(s, t);
    assert y.disk == Some(Left(1, 1, map[]));
    x := GoSaveAndRaise(y, t);
    Then(s, y, x);
  }

  lemma GoRelease(s: State, t: string) returns (x: State)
    requires Doing(s, t, Finishing) && s.meta.lockToken == Some(t)
    ensures Leads(s, x) && x == Moved(s.(meta := s.meta.(lockedAt := None, lockToken := None)), t, Gone)
  {
    x := Do(s, Release(t, true));
  }

  /** A first run fails once its batch is saved, and gives the lock back. */
  lemma FirstRun(s: State, t: string, tree: string) returns (x: State)
    requires s.runs == map[] && s.meta == Meta(None, None, Absent, None) && s.disk == None
      && s.extract(tree, 1) == [OneFile(tree)]
    ensures Leads(s, x) && x.meta == Meta(None, None, Failed, None)
    ensures x.disk == Some(Left(1, 1, map[0 := OneFile(tree)])) && x.runs.Keys == {t}
    ensures x.extract == s.extract && x.files == s.files && x.window == s.window && x.clock == s.clock
  {
    var y := GoHold(s, t, tree);
    x := GoFail(y, t, OneFile(tree));
    Then(s, y, x);
    y := GoRelease(x, t);
    Then(s, x, y);
    x := y;
  }

  lemma SecondRun(s: State, t: string, tree: string, got: Tree) returns (x: State)
    requires t !in s.runs && s.meta == Meta(None, None, Failed, None) && s.extract(tree, 1) == [OneFile(tree)]
    requires s.disk == Some(Left(1, 1, map[0 := got]))
    ensures Leads(s, x) && x.meta.status == Ready && x.meta.hash == Some(tree)
    ensures x.graph == Settled(IngestOf(map[], s.files(tree), [got])) && x.files == s.files
  {
    x := GoHold(s, t, tree);
    var y := GoOpen(x, t);
    Then(s, x, y);
    x := GoGather(y, t, got);
    Then(s, y, x);
    y := GoBegin(x, t, [got]);
    Then(s, x, y);
    x := y;
    y := GoPublish(x, t, Settled(IngestOf(map[], s.files(tree), [got])));
    Then(s, x, y);
    x := y;
  }

  lemma OneBatch(t: Tree)
    ensures Merged([t]) == Image(t)
  {
    assert [t][..0] == [];
  }

  /** A run on tree `a` fails once its batch is saved; a run on tree `b` with as many batches then finds no baseline,
      wipes, takes that batch over, and publishes "ready" with the hash of `b`. */
  lemma StaleReady(a: string, b: string) returns (steps: seq<Step>)
    requires a != b
    ensures Initial(Untouched()) && Extracts(Untouched()) && TimelyThroughout(Untouched(), steps)
    ensures var end := After(Untouched(), steps);
      end.meta.status == Ready && end.meta.hash == Some(b) && !ReadyIsComplete(end)
  {
    var s := Untouched();
    forall h, size {:trigger s.extract(h, size)} ensures Merged(s.extract(h, size)) == Image(s.files(h)) {
      OneBatch(OneFile(h));
    }
    var x := FirstRun(s, "r", a);
    var y := SecondRun(x, "q", b, OneFile(a));
    Then(s, x, y);
    steps :| After(s, steps) == y && Still(steps);
    OtherBatch(a, b);
    PromptIsTimely(s, steps);
  }

  lemma OtherBatch(a: string, b: string)
    requires a != b
    ensures IngestOf(map[], OneFile(b), [OneFile(a)]) != Image(OneFile(b))
  {
    OneBatch(OneFile(a));
    IngestIsImageIff(map[], OneFile(b), [OneFile(a)]);
    WipedComesOutRightIff(OneFile(b), [OneFile(a)]);
    assert Image(OneFile(a))["f"] != Image(OneFile(b))["f"];
  }
}
