/** One indexing run, statement by statement: claim, check the baseline, ingest, publish, report, release. */
module EnsureIndexed {
  import opened GraphModel
  import opened NamespaceLock
  import opened Checkpoint
  import opened FileContents
  import opened IndexProtocol

  /** The statement that raises, if one does. */
  datatype Fault = NoFault | Reading | Marking | Writing | Counting | Publishing

  datatype Outcome = Locked | Unchanged | Indexed | Raised | Killed

  predicate Free(m: Meta) { m.lockedAt.None? && m.lockToken.None? }

  /** A source tree: its hash, its files, and what extraction makes of each of its batches. */
  datatype SourceTree = SourceTree(hash: string, files: Tree, batches: seq<Tree>, size: nat)

  class Namespace {
    var node: MetaNode
    var graph: Graph
    const disk: Directory<Tree>
    ghost const files: string -> Tree

    /** A ready namespace has a hash and a graph that ingests have finished with. */
    ghost predicate Valid()
      reads this, node
    {
      node.meta.status == Ready ==> node.meta.hash.Some? && Whole(graph)
    }

    /** "Ready" means that the graph is of the tree with the stored hash, file by file. */
    ghost predicate Vouches()
      reads this, node
    {
      node.meta.status == Ready ==> node.meta.hash.Some? && graph == Settled(Image(files(node.meta.hash.value)))
    }

    constructor (ghost files: string -> Tree)
      ensures fresh(node) && fresh(disk) && Valid() && Vouches() && Free(node.meta) && this.files == files
      ensures disk.manifest == None && disk.files == map[] && disk.steps == 0
    {
      node := new MetaNode();
      disk := new Directory<Tree>();
      graph := Torn;
      this.files := files;
    }

    /** What this run's ingest will come to: every file as the tree has it. */
    ghost predicate IngestsRight(src: SourceTree)
      reads this, node, disk
    {
      ComesOutRight(Base(node.meta, graph), src.files, TakenOver(disk.Remains(), src.batches, src.size))
    }

    ghost predicate Published(src: SourceTree)
      reads this`node, node
    {
      node.meta.status == Ready && node.meta.hash == Some(src.hash)
    }

    /** Extracts, or takes over what the checkpoint has; wipes or patches; clears the checkpoint. */
    method IndexRepo(src: SourceTree, baseline: Option<string>, fails: bool) returns (through: bool, ghost whole: bool)
      requires baseline.Some? ==> Whole(graph)
      modifies this`graph, disk
      ensures through ==> !fails
      ensures through ==>
        graph == IndexProtocol.Outcome(old(graph), baseline, src.files,
                                       old(TakenOver(disk.Remains(), src.batches, src.size)))
      ensures through && whole ==> disk.manifest == None && disk.files == map[]
      ensures !through ==> fails || disk.steps == 0
    {
      through, whole := false, false;
      var batches := disk.Run(src.batches, src.size);
      if batches.None? { return; }
      var next := IndexProtocol.Outcome(graph, baseline, src.files, batches.value);
      graph := Torn;
      if fails { return; }
      graph := next;
      through, whole := disk.Clear();
    }

    /**
      * Without a kill, the lock is given back on every path that took it, unless giving it back raises; then it stays
      * with this run's token, and claimable once it is stale. What this run publishes as "ready" vouches for the graph
      * exactly when its ingest comes out right, from the graph and the checkpoint it found; "ready" is never left
      * standing over a graph that an ingest has begun to change. Extraction and clearing last as long as the disk's
      * steps; what stops them is a kill or an exception.
      */
    method EnsureIndexed(src: SourceTree, token: string, clock: real, window: real, job: Option<string>, fault: Fault,
                         killed: bool, reportFails: bool, releaseFails: bool)
      returns (o: Outcome, ghost wiped: bool, ghost whole: bool)
      requires Valid() && files(src.hash) == src.files
      modifies this`graph, node, disk
      ensures Valid() && node == old(node)
      ensures o == Indexed ==> Published(src) && (Vouches() <==> old(IngestsRight(src)))
      ensures o != Indexed ==> (old(Vouches()) ==> Vouches())
      ensures o == Indexed && whole ==> disk.manifest == None && disk.files == map[]
      ensures o == Indexed ==> wiped == Baseline(old(node.meta)).None? && Baseline(old(node.meta)) != Some(src.hash)
      ensures o == Locked <==> !Claimable(old(node.meta), clock - window)
      ensures o == Locked ==> node.meta == old(node.meta) && graph == old(graph)
      ensures o == Unchanged ==> graph == old(graph) && Published(src)
      ensures o == Locked || o == Unchanged ==> disk.Remains() == old(disk.Remains())
      ensures o != Locked && o != Killed && !releaseFails ==> Free(node.meta)
      ensures o == Killed || (o != Locked && releaseFails) ==>
        node.meta.lockToken == Some(token) && (forall later :: Claimable(node.meta, later) <==> clock < later)
      ensures o == Raised ==> fault != NoFault || disk.steps == 0
      ensures o == Raised ==> graph == old(graph) || node.meta.status != Ready
      ensures o == Raised && !reportFails ==> node.meta.status == Failed
      ensures o == Killed ==> killed && node.meta.status == Indexing
    {
      wiped, whole := false, false;
      var acquired := node.AcquireLock(token, clock - window, clock, job);
      if !acquired {
        return Locked, false, false;
      }
      o, wiped, whole := TryBlock(src, fault, killed);
      if o == Killed { return; }
      if o == Raised && !reportFails {
        node.SetStatus(Failed, None);
      }
      if !releaseFails {
        node.ReleaseLock(token);
      }
    }

    /** The body of the try block. */
    method TryBlock(src: SourceTree, fault: Fault, killed: bool)
      returns (o: Outcome, ghost wiped: bool, ghost whole: bool)
      requires Valid() && files(src.hash) == src.files
      modifies this`graph, node, disk
      ensures Valid() && o != Locked
      ensures node.meta == old(node.meta).(status := node.meta.status, hash := node.meta.hash)
      ensures o == Indexed ==> Published(src) && (Vouches() <==> old(IngestsRight(src)))
      ensures o != Indexed ==> (old(Vouches()) ==> Vouches())
      ensures o == Indexed && whole ==> disk.manifest == None && disk.files == map[]
      ensures o == Indexed ==> wiped == Baseline(old(node.meta)).None? && Baseline(old(node.meta)) != Some(src.hash)
      ensures o == Unchanged ==> graph == old(graph) && Published(src) && disk.Remains() == old(disk.Remains())
      ensures o == Raised ==> fault != NoFault || disk.steps == 0
      ensures o == Raised ==> graph == old(graph) || node.meta.status != Ready
      ensures o == Killed ==> killed && node.meta.status == Indexing
    {
      wiped, whole := false, false;
      if fault == Reading { return Raised, false, false; }
      var baseline := Baseline(node.meta);
      if baseline == Some(src.hash) { return Unchanged, false, false; }
      if fault == Marking { return Raised, false, false; }
      OutcomeIff(node.meta, graph, src.files, TakenOver(disk.Remains(), src.batches, src.size));
      OutcomeIsWhole(graph, baseline, src.files, TakenOver(disk.Remains(), src.batches, src.size));
      node.SetStatus(Indexing, None);
      wiped := baseline.None?;
      var through;
      through, whole := IndexRepo(src, baseline, fault == Writing);
      if !through { return if killed && fault != Writing then Killed else Raised, wiped, whole; }
      if fault == Counting || fault == Publishing { return Raised, wiped, whole; }
      node.SetStatus(Ready, Some(src.hash));
      o := Indexed;
    }
  }
}
