/** Crash-resumable extraction: batch files and a manifest on disk, with a crash possible before any disk step. */
module Checkpoint {
  import opened GraphModel

  datatype Manifest = Manifest(total: nat, size: nat, done: seq<nat>)

  /** What later runs can take from a checkpoint: the shape of its manifest, and every listed batch whose file is
      there. */
  datatype Left<Bundle> = Left(total: nat, size: nat, done: map<nat, Bundle>)

  predicate Fits<Bundle>(left: Option<Left<Bundle>>, total: nat, size: nat) {
    left.Some? && left.value.total == total && left.value.size == size
  }

  /** Every batch that a run over `src` would take from the checkpoint is the extraction of that batch. */
  ghost predicate Truthful<Bundle>(left: Option<Left<Bundle>>, src: seq<Bundle>, size: nat) {
    Fits(left, |src|, size) ==> forall i :: i in left.value.done && i < |src| ==> left.value.done[i] == src[i]
  }

  // ---- a checkpoint on its way through a run ------------------------------------

  /** Starting a run: a checkpoint of the same shape is taken over, any other replaced by an empty one. */
  function Opened<Bundle>(left: Option<Left<Bundle>>, total: nat, size: nat): Option<Left<Bundle>> {
    if Fits(left, total, size) then left else Some(Left(total, size, map[]))
  }

  /** A batch that is listed and there is skipped. */
  function Saved<Bundle>(left: Option<Left<Bundle>>, i: nat, src: seq<Bundle>): Option<Left<Bundle>> {
    if left.None? || i in left.value.done || |src| <= i then left
    else Some(left.value.(done := left.value.done[i := src[i]]))
  }

  predicate Filled<Bundle>(left: Option<Left<Bundle>>, total: nat) {
    left.Some? && forall i | 0 <= i < total :: i in left.value.done
  }

  function Collected<Bundle>(left: Option<Left<Bundle>>, total: nat): seq<Bundle>
    requires Filled(left, total)
  {
    seq(total, i requires 0 <= i < total => left.value.done[i])
  }

  /** Some removals done: the files outside `kept`, and the manifest unless `listed`. */
  function Thinned<Bundle>(left: Option<Left<Bundle>>, kept: set<nat>, listed: bool): Option<Left<Bundle>> {
    if left.None? || !listed then None
    else Some(left.value.(done := map i | i in left.value.done && i in kept :: left.value.done[i]))
  }

  /** The batches that a run over `src` ends up with when it starts from this checkpoint. */
  function TakenOver<Bundle>(left: Option<Left<Bundle>>, src: seq<Bundle>, size: nat): (got: seq<Bundle>)
    ensures |got| == |src|
  {
    seq(|src|, i requires 0 <= i < |src| =>
      if Fits(left, |src|, size) && i in left.value.done then left.value.done[i] else src[i])
  }

  lemma OpenedTakes<Bundle>(left: Option<Left<Bundle>>, src: seq<Bundle>, size: nat)
    ensures Fits(Opened(left, |src|, size), |src|, size)
    ensures TakenOver(Opened(left, |src|, size), src, size) == TakenOver(left, src, size)
  {
  }

  /** Saving what is missing changes nothing of what will be taken. */
  lemma SavedTakes<Bundle>(left: Option<Left<Bundle>>, i: nat, src: seq<Bundle>, size: nat)
    requires Fits(left, |src|, size)
    ensures Fits(Saved(left, i, src), |src|, size)
    ensures TakenOver(Saved(left, i, src), src, size) == TakenOver(left, src, size)
  {
  }

  lemma CollectedIsTaken<Bundle>(left: Option<Left<Bundle>>, src: seq<Bundle>, size: nat)
    requires Fits(left, |src|, size) && Filled(left, |src|)
    ensures Collected(left, |src|) == TakenOver(left, src, size)
  {
  }

  /** A run ends up with its own extraction exactly when every batch it takes over is its own. */
  lemma OwnIffTruthful<Bundle>(left: Option<Left<Bundle>>, src: seq<Bundle>, size: nat)
    ensures TakenOver(left, src, size) == src <==> Truthful(left, src, size)
  {
    var got := TakenOver(left, src, size);
    if Truthful(left, src, size) {
      assert forall i :: 0 <= i < |src| ==> got[i] == src[i];
    } else {
      var i :| i in left.value.done && i < |src| && left.value.done[i] != src[i];
      assert got[i] != src[i];
    }
  }

  /** The checkpoint directory of one repository. `steps` is how many disk steps are left before the process dies;
      a file is there in full or not at all, because each is renamed into place. */
  class Directory<Bundle> {
    var manifest: Option<Manifest>
    var files: map<nat, Bundle>
    var steps: nat

    constructor ()
      ensures manifest == None && files == map[] && steps == 0
    {
      manifest, files, steps := None, map[], 0;
    }

    /** What a later run can take from this directory. */
    function Remains(): Option<Left<Bundle>>
      reads this
    {
      if manifest.None? then None
      else Some(Left(manifest.value.total, manifest.value.size, map i | i in files
        && i in manifest.value.done :: files[i]))
    }

    predicate ShapeIs(total: nat, size: nat)
      reads this
    {
      Fits(Remains(), total, size)
    }

    /** A run of this shape would take batch `i` from disk. */
    predicate Resumable(i: nat, total: nat, size: nat)
      reads this
    {
      ShapeIs(total, size) && i in manifest.value.done && i in files
    }

    /** Every batch a run of this shape would take from disk is the extraction of that batch. */
    ghost predicate Faithful(src: seq<Bundle>, size: nat)
      reads this
    {
      Truthful(Remains(), src, size)
    }

    method Tick() returns (alive: bool)
      modifies this`steps
      ensures alive <==> 0 < old(steps)
      ensures steps == if alive then old(steps) - 1 else 0
    {
      alive := 0 < steps;
      if alive {
        steps := steps - 1;
      }
    }

    /** How many disk steps a run of `n` batches can take: an entry each to clear, two for the manifest's own, two a
        batch. */
    function Budget(n: nat): nat
      reads this
    {
      |files| + 2 + 2 * n
    }

    /** Removing one entry, a batch file or the manifest, if it can be removed. */
    method Unlink(entry: Option<nat>) returns (removed: bool)
      modifies this`files, this`manifest
      ensures !removed ==> files == old(files) && manifest == old(manifest)
      ensures removed && entry.Some? ==> files == old(files) - {entry.value} && manifest == old(manifest)
      ensures removed && entry.None? ==> files == old(files) && manifest == None
    {
      removed := *;
      if removed {
        match entry {
          case Some(i) => files := files - {i};
          case None => manifest := Option.None;
        }
      }
    }

    /** The entries of the directory. */
    method Scan() returns (entries: set<Option<nat>>)
      ensures |entries| == |files| + 1 && None in entries && forall i :: i in files ==> Some(i) in entries
    {
      entries := Entries(files.Keys) + {None};
      EntryCount(files.Keys);
      assert |files.Keys| == |files|;
    }

    /** Removing the directory: entry by entry in any order, leaving behind whatever cannot be removed. */
    method Clear() returns (alive: bool, whole: bool)
      modifies this
      ensures alive && whole ==> manifest == None && files == map[]
      ensures manifest == None || manifest == old(manifest)
      ensures forall i :: i in files ==> i in old(files) && files[i] == old(files)[i]
      ensures !alive ==> steps == 0
      ensures old(steps) >= |old(files)| + 1 ==> alive && steps >= old(steps) - |old(files)| - 1
    {
      var todo := Scan();
      whole := true;
      while todo != {}
        invariant steps + |old(files)| + 1 == old(steps) + |todo|
        invariant manifest == None || manifest == old(manifest)
        invariant forall i :: i in files ==> i in old(files) && files[i] == old(files)[i]
        invariant whole ==> (forall i :: i in files ==> Some(i) in todo) && (manifest == None || Option.None in todo)
        decreases todo
      {
        alive := Tick();
        if !alive {
          return;
        }
        var entry :| entry in todo;
        var removed := Unlink(entry);
        whole := whole && removed;
        todo := todo - {entry};
      }
      alive := true;
    }

    /** The manifest of a matching earlier run, or a fresh one after a mismatching one was cleared. */
    method InitManifest(total: nat, size: nat) returns (alive: bool, m: Manifest)
      modifies this
      ensures alive ==> manifest == Some(m) && m.total == total && m.size == size
      ensures old(ShapeIs(total, size)) ==> alive && manifest == old(manifest) && files == old(files)
      ensures !old(ShapeIs(total, size)) ==> if alive then m.done == [] else !ShapeIs(total, size)
      ensures forall i :: i in files ==> i in old(files)
      ensures !alive ==> steps == 0
      ensures old(steps) >= |old(files)| + 2 ==> alive && steps >= old(steps) - |old(files)| - 2
    {
      m := Manifest(total, size, []);
      if manifest.Some? {
        if manifest.value.total == total && manifest.value.size == size {
          return true, manifest.value;
        }
        var whole;
        alive, whole := Clear();
        if !alive {
          return;
        }
      }
      alive := Tick();
      if alive {
        manifest := Some(m);
      }
    }

    /** The batch file first, then the manifest that lists it. */
    method SaveBatch(i: nat, bundle: Bundle, m: Manifest) returns (alive: bool, m': Manifest)
      requires manifest == Some(m)
      modifies this
      ensures files == old(files) || files == old(files)[i := bundle]
      ensures m' == if i in m.done then m else m.(done := m.done + [i])
      ensures manifest == Some(m) || (manifest == Some(m') && files == old(files)[i := bundle])
      ensures alive ==> manifest == Some(m') && files == old(files)[i := bundle]
      ensures !alive ==> steps == 0
      ensures old(steps) >= 2 ==> alive && steps == old(steps) - 2
    {
      m' := m;
      if i !in m'.done {
        m' := m'.(done := m'.done + [i]);
      }
      alive := Tick();
      if !alive {
        return;
      }
      files := files[i := bundle];
      alive := Tick();
      if alive {
        manifest := Some(m');
      }
    }

    /** The batch a run starting from this directory ends up with at `i`. */
    ghost function Outcome(i: nat, src: seq<Bundle>, size: nat): Bundle
      requires i < |src|
      reads this
    {
      if Resumable(i, |src|, size) then files[i] else src[i]
    }

    /** The extraction loop over the batches of `src`: what is done and on disk is skipped, the rest is extracted
        anew. */
    method Extract(src: seq<Bundle>, size: nat) returns (alive: bool, redone: set<nat>)
      modifies this
      ensures !alive ==> steps == 0
      ensures alive ==> forall i :: 0 <= i < |src| ==> i in files && files[i] == old(Outcome(i, src, size))
      ensures alive ==> forall i :: 0 <= i < |src| ==> Resumable(i, |src|, size)
      ensures forall i :: 0 <= i < |src| && Resumable(i, |src|, size) ==> files[i] == old(Outcome(i, src, size))
      ensures forall i :: i in redone ==> i < |src| && !old(Resumable(i, |src|, size))
      ensures alive ==> forall i :: 0 <= i < |src| ==> (i in redone <==> !old(Resumable(i, |src|, size)))
      ensures old(steps) >= old(Budget(|src|)) ==> alive
      ensures forall i :: i in files ==> i in old(files) || i < |src|
    {
      redone := {};
      var m;
      alive, m := InitManifest(|src|, size);
      if !alive {
        return;
      }
      alive, redone := ExtractInto(src, size, m);
    }

    /** The loop itself, from an initialised manifest. */
    method ExtractInto(src: seq<Bundle>, size: nat, init: Manifest) returns (alive: bool, redone: set<nat>)
      requires manifest == Some(init) && init.total == |src| && init.size == size
      modifies this
      ensures !alive ==> steps == 0
      ensures alive ==> forall i :: 0 <= i < |src| ==> i in files && files[i] == old(Outcome(i, src, size))
      ensures alive ==> forall i :: 0 <= i < |src| ==> Resumable(i, |src|, size)
      ensures forall i :: 0 <= i < |src| && Resumable(i, |src|, size) ==> files[i] == old(Outcome(i, src, size))
      ensures forall i :: i in redone ==> i < |src| && !old(Resumable(i, |src|, size))
      ensures alive ==> forall i :: 0 <= i < |src| ==> (i in redone <==> !old(Resumable(i, |src|, size)))
      ensures old(steps) >= 2 * |src| ==> alive
      ensures forall i :: i in files ==> i in old(files) || i < |src|
    {
      redone, alive := {}, true;
      var m := init;
      for i := 0 to |src|
        invariant alive && manifest == Some(m) && m.total == |src| && m.size == size
        invariant forall k :: 0 <= k < i ==> k in m.done && k in files && files[k] == old(Outcome(k, src, size))
        invariant forall k :: i <= k < |src| ==>
          && (Resumable(k, |src|, size) <==> old(Resumable(k, |src|, size)))
          && (k in files <==> k in old(files)) && (k in files ==> files[k] == old(files)[k])
        invariant forall k :: k in redone <==> 0 <= k < i && !old(Resumable(k, |src|, size))
        invariant old(steps) >= 2 * |src| ==> steps >= 2 * (|src| - i)
        invariant forall k :: k in files ==> k in old(files) || k < |src|
      {
        if i in m.done && i in files {
          continue;
        }
        redone := redone + {i};
        alive, m := SaveBatch(i, src[i], m);
        if !alive {
          return;
        }
      }
    }

    /** Reading every batch back; a missing file is passed over. */
    method Reassemble(total: nat) returns (batches: seq<Bundle>)
      ensures (forall i :: 0 <= i < total ==> i in files) ==> 
        |batches| == total && forall i :: 0 <= i < total ==> batches[i] == files[i]
    {
      batches := [];
      for i := 0 to total
        invariant (forall k :: 0 <= k < i ==> k in files) ==>
          |batches| == i && forall k :: 0 <= k < i ==> batches[k] == files[k]
      {
        if i in files {
          batches := batches + [files[i]];
        }
      }
    }

    /** One process: extract, then reassemble. */
    method Run(src: seq<Bundle>, size: nat) returns (r: Option<seq<Bundle>>)
      modifies this
      ensures r.None? ==> steps == 0
      ensures r.Some? ==> r.value == old(TakenOver(Remains(), src, size))
      ensures r.Some? ==> (r.value == src <==> old(Faithful(src, size)))
      ensures old(Faithful(src, size)) ==> Faithful(src, size)
      ensures r.Some? ==> forall i :: 0 <= i < |src| ==> Resumable(i, |src|, size) && files[i] == r.value[i]
      ensures old(steps) >= old(Budget(|src|)) ==> r.Some?
      ensures forall i :: i in files ==> i in old(files) || i < |src|
    {
      OwnIffTruthful(Remains(), src, size);
      var alive, redone := Extract(src, size);
      if !alive {
        return None;
      }
      var batches := Reassemble(|src|);
      r := Some(batches);
    }

    /** Any number of processes over the same tree, the k-th dying after `lives[k]` disk steps: one life that is long
        enough, whatever the crashes before it left, brings the crash-free result. */
    method RunWithCrashes(src: seq<Bundle>, size: nat, lives: seq<nat>) returns (r: Option<seq<Bundle>>)
      requires Faithful(src, size)
      modifies this
      ensures Faithful(src, size)
      ensures r.Some? ==> r.value == src
      ensures (exists k :: 0 <= k < |lives| && lives[k] >= old(Budget(|src|)) + |src|) ==> r == Some(src)
    {
      r := None;
      for k := 0 to |lives|
        invariant Faithful(src, size)
        invariant r.None?
        invariant forall i :: i in files ==> i in old(files) || i < |src|
        invariant forall j :: 0 <= j < k ==> lives[j] < old(Budget(|src|)) + |src|
      {
        FilesBounded(old(files).Keys, files.Keys, |src|);
        steps := lives[k];
        r := Run(src, size);
        if r.Some? {
          return;
        }
      }
    }
  }

  function Entries(keys: set<nat>): set<Option<nat>> { set i | i in keys :: Some(i) }

  lemma {:induction false} EntryCount(keys: set<nat>)
    ensures |Entries(keys)| == |keys|
    decreases keys
  {
    if keys == {} {
      assert Entries(keys) == {};
    } else {
      var i :| i in keys;
      EntryCount(keys - {i});
      assert Entries(keys) == Entries(keys - {i}) + {Some(i)};
    }
  }

  lemma {:induction false} FilesBounded(before: set<nat>, now: set<nat>, n: nat)
    requires forall i :: i in now ==> i in before || i < n
    ensures |now| <= |before| + n
    decreases n
  {
    if n == 0 {
      Fewer(now, before);
    } else {
      FilesBounded(before, now - {n - 1}, n - 1);
    }
  }

  lemma {:induction false} Fewer(a: set<nat>, b: set<nat>)
    requires a <= b
    ensures |a| <= |b|
  {
    if a != {} {
      var x :| x in a;
      Fewer(a - {x}, b - {x});
    }
  }

  /** The shape check sees only numbers: a run that gets through extraction and then fails or is killed leaves a
      checkpoint that is the answer for any other tree with as many batches. */
  method StaleTree<Bundle>(before: seq<Bundle>, after: seq<Bundle>, size: nat)
    returns (r: Option<seq<Bundle>>)
    requires |before| == |after|
    ensures r == Some(before)
  {
    var dir := new Directory<Bundle>();
    dir.steps := dir.Budget(|before|);
    r := dir.Run(before, size);
    assert r.value == before;
    dir.steps := dir.Budget(|after|);
    r := dir.Run(after, size);
    assert r.value == before;
  }

  /** A run that succeeds clears its checkpoint at the end; unless something in it could not be removed, the next run
      has its own tree's batches. */
  method ClearedTree<Bundle>(before: seq<Bundle>, after: seq<Bundle>, size: nat, nextSize: nat)
    returns (whole: bool, r: Option<seq<Bundle>>)
    ensures whole ==> r == Some(after)
  {
    var dir := new Directory<Bundle>();
    dir.steps := dir.Budget(|before|);
    r := dir.Run(before, size);
    dir.steps := |dir.files| + 1;
    var alive;
    alive, whole := dir.Clear();
    dir.steps := dir.Budget(|after|);
    r := dir.Run(after, nextSize);
  }
}
