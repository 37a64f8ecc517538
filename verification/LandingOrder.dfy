/** What the order of landing can and cannot change. */
module LandingOrder {
  import opened Relationships
  import opened BatchScheduler

  ghost function EffectOf(nodes: set<string>, batches: Batches, i: nat): Rels
    requires i < |batches|
  {
    Effect(nodes, batches[i])
  }

  /** Batch `i` gives relationship `k` the value `v` for property `q`. */
  ghost predicate Gives(nodes: set<string>, batches: Batches, i: nat, k: Key, q: string, v: Value) {
    i < |batches| && var p := Get(EffectOf(nodes, batches, i), k); q in p && p[q] == v
  }

  /** No two batches give one property of one relationship different values. */
  ghost predicate ConflictFree(nodes: set<string>, batches: Batches) {
    forall i, j, k, q, v, w :: Gives(nodes, batches, i, k, q, v) && Gives(nodes, batches, j, k, q, w) ==> v == w
  }

  ghost predicate Touched(nodes: set<string>, batches: Batches, log: seq<nat>, k: Key)
    requires Named(batches, log)
  {
    exists p :: 0 <= p < |log| && k in EffectOf(nodes, batches, log[p])
  }

  ghost predicate Given(nodes: set<string>, batches: Batches, log: seq<nat>, k: Key, q: string, v: Value) {
    exists p :: 0 <= p < |log| && Gives(nodes, batches, log[p], k, q, v)
  }

  lemma LandLast(nodes: set<string>, rels: Rels, batches: Batches, log: seq<nat>)
    requires Named(batches, log) && log != []
    ensures Landing(nodes, rels, batches, log)
         == Over(Landing(nodes, rels, batches, log[..|log| - 1]), EffectOf(nodes, batches, log[|log| - 1]))
  {
    var last := |log| - 1;
    BatchIsOver(nodes, Landing(nodes, rels, batches, log[..last]), batches[log[last]]);
  }

  /** Which relationships exist depends only on which batches landed. */
  lemma {:induction false} KeysAfter(nodes: set<string>, rels: Rels, batches: Batches, log: seq<nat>, k: Key)
    requires Named(batches, log)
    ensures k in Landing(nodes, rels, batches, log) <==> k in rels || Touched(nodes, batches, log, k)
    decreases |log|
  {
    if log != [] {
      var rest, x := log[..|log| - 1], log[|log| - 1];
      KeysAfter(nodes, rels, batches, rest, k);
      LandLast(nodes, rels, batches, log);
      OverAt(Landing(nodes, rels, batches, rest), EffectOf(nodes, batches, x), k);
      assert Touched(nodes, batches, log, k) <==>
        Touched(nodes, batches, rest, k) || k in EffectOf(nodes, batches, x) by {
        if Touched(nodes, batches, rest, k) {
          var p :| 0 <= p < |rest| && k in EffectOf(nodes, batches, rest[p]);
          assert k in EffectOf(nodes, batches, log[p]);
        }
      }
    }
  }

  ghost predicate Holds(rels: Rels, k: Key, q: string, v: Value) { q in Get(rels, k) && Get(rels, k)[q] == v }

  /** Without conflicts, a property holds what some landed batch gave it, or else what it held before. */
  lemma {:induction false} PropertyAfter(nodes: set<string>, rels: Rels, batches: Batches, log: seq<nat>, k: Key,
                                         q: string, v: Value)
    requires Named(batches, log) && ConflictFree(nodes, batches)
    ensures Holds(Landing(nodes, rels, batches, log), k, q, v) <==>
      Given(nodes, batches, log, k, q, v) || (Holds(rels, k, q, v) && forall w :: !Given(nodes, batches, log, k, q, w))
    decreases |log|
  {
    if log != [] {
      var rest, x := log[..|log| - 1], log[|log| - 1];
      PropertyAfter(nodes, rels, batches, rest, k, q, v);
      LandLast(nodes, rels, batches, log);
      OverAt(Landing(nodes, rels, batches, rest), EffectOf(nodes, batches, x), k);
      forall w ensures Given(nodes, batches, log, k, q, w) <==>
        Given(nodes, batches, rest, k, q, w) || Gives(nodes, batches, x, k, q, w) {
        GivenSplit(nodes, batches, log, k, q, w);
      }
      var own := Get(EffectOf(nodes, batches, x), k);
      if q in own {
        assert Gives(nodes, batches, x, k, q, own[q]);
        if Given(nodes, batches, rest, k, q, v) {
          var p :| 0 <= p < |rest| && Gives(nodes, batches, rest[p], k, q, v);
        }
      }
    }
  }

  lemma GivenSplit(nodes: set<string>, batches: Batches, log: seq<nat>, k: Key, q: string, w: Value)
    requires log != []
    ensures Given(nodes, batches, log, k, q, w) <==>
      Given(nodes, batches, log[..|log| - 1], k, q, w) || Gives(nodes, batches, log[|log| - 1], k, q, w)
  {
    var rest := log[..|log| - 1];
    if Given(nodes, batches, rest, k, q, w) {
      var p :| 0 <= p < |rest| && Gives(nodes, batches, rest[p], k, q, w);
      assert Gives(nodes, batches, log[p], k, q, w);
    }
  }

  /** Two orders of the same batches. */
  ghost predicate Reordered(log: seq<nat>, log': seq<nat>) { forall i :: i in log <==> i in log' }

  /** Any order of landing leaves the same relationships. */
  lemma SameKeys(nodes: set<string>, rels: Rels, batches: Batches, log: seq<nat>, log': seq<nat>)
    requires Named(batches, log) && Named(batches, log') && Reordered(log, log')
    ensures Landing(nodes, rels, batches, log).Keys == Landing(nodes, rels, batches, log').Keys
  {
    forall k ensures k in Landing(nodes, rels, batches, log) <==> k in Landing(nodes, rels, batches, log') {
      KeysAfter(nodes, rels, batches, log, k);
      KeysAfter(nodes, rels, batches, log', k);
      if Touched(nodes, batches, log, k) { TouchedMoves(nodes, batches, log, log', k); }
      if Touched(nodes, batches, log', k) { TouchedMoves(nodes, batches, log', log, k); }
    }
  }

  lemma TouchedMoves(nodes: set<string>, batches: Batches, log: seq<nat>, log': seq<nat>, k: Key)
    requires Named(batches, log) && Named(batches, log') && Reordered(log, log') && Touched(nodes, batches, log, k)
    ensures Touched(nodes, batches, log', k)
  {
    var p :| 0 <= p < |log| && k in EffectOf(nodes, batches, log[p]);
    assert log[p] in log';
    var p' :| 0 <= p' < |log'| && log'[p'] == log[p];
  }

  lemma GivenMoves(nodes: set<string>, batches: Batches, log: seq<nat>, log': seq<nat>, k: Key, q: string, v: Value)
    requires Reordered(log, log') && Given(nodes, batches, log, k, q, v)
    ensures Given(nodes, batches, log', k, q, v)
  {
    var p :| 0 <= p < |log| && Gives(nodes, batches, log[p], k, q, v);
    assert log[p] in log';
    var p' :| 0 <= p' < |log'| && log'[p'] == log[p];
  }

  /** Without conflicts any order of landing leaves the same store. */
  lemma SameStore(nodes: set<string>, rels: Rels, batches: Batches, log: seq<nat>, log': seq<nat>)
    requires Named(batches, log) && Named(batches, log') && Reordered(log, log') && ConflictFree(nodes, batches)
    ensures Landing(nodes, rels, batches, log) == Landing(nodes, rels, batches, log')
  {
    var x, y := Landing(nodes, rels, batches, log), Landing(nodes, rels, batches, log');
    SameKeys(nodes, rels, batches, log, log');
    forall k, q, v ensures Holds(x, k, q, v) <==> Holds(y, k, q, v) {
      PropertyAfter(nodes, rels, batches, log, k, q, v);
      PropertyAfter(nodes, rels, batches, log', k, q, v);
      forall w ensures Given(nodes, batches, log, k, q, w) <==> Given(nodes, batches, log', k, q, w) {
        if Given(nodes, batches, log, k, q, w) { GivenMoves(nodes, batches, log, log', k, q, w); }
        if Given(nodes, batches, log', k, q, w) { GivenMoves(nodes, batches, log', log, k, q, w); }
      }
    }
    forall k ensures (k in x <==> k in y) && Get(x, k) == Get(y, k) {
      SameProps(x, y, k);
    }
    SameRels(x, y);
  }

  lemma SameProps(x: Rels, y: Rels, k: Key)
    requires x.Keys == y.Keys && forall q, v :: Holds(x, k, q, v) <==> Holds(y, k, q, v)
    ensures (k in x <==> k in y) && Get(x, k) == Get(y, k)
  {
    forall q ensures q in Get(x, k) <==> q in Get(y, k) {
      if q in Get(x, k) { assert Holds(x, k, q, Get(x, k)[q]); }
      if q in Get(y, k) { assert Holds(y, k, q, Get(y, k)[q]); }
    }
    forall q | q in Get(x, k) ensures Get(x, k)[q] == Get(y, k)[q] {
      assert Holds(x, k, q, Get(x, k)[q]);
    }
  }

  /** All batches in order, except that batch `i` lands last. */
  ghost function MovedLast(n: nat, i: nat): (log: seq<nat>)
    requires i < n
    ensures |log| == n && log[n - 1] == i
    ensures forall p :: 0 <= p < n - 1 ==> log[p] == if p < i then p else p + 1
  {
    seq(n, p requires 0 <= p < n => if p == n - 1 then i else if p < i then p else p + 1)
  }

  /** Two writers are enough for any batch to be overtaken by all that follow it. */
  lemma MovedLastIsSchedule(n: nat, i: nat, workers: nat)
    requires i < n && 2 <= workers
    ensures IsSchedule(MovedLast(n, i), n, workers)
  {
  }

  /** Of two batches in conflict, whichever lands last wins. */
  lemma LastWins(nodes: set<string>, rels: Rels, batches: Batches, log: seq<nat>, k: Key, q: string, v: Value)
    requires Named(batches, log) && log != [] && Gives(nodes, batches, log[|log| - 1], k, q, v)
    ensures Holds(Landing(nodes, rels, batches, log), k, q, v)
  {
    LandLast(nodes, rels, batches, log);
    OverAt(Landing(nodes, rels, batches, log[..|log| - 1]), EffectOf(nodes, batches, log[|log| - 1]), k);
  }

  /** Two schedules that end differently, for batches in conflict. */
  lemma ConflictShows(nodes: set<string>, rels: Rels, batches: Batches, workers: nat)
    returns (log: seq<nat>, log': seq<nat>)
    requires !ConflictFree(nodes, batches) && 2 <= workers
    ensures IsSchedule(log, |batches|, workers) && IsSchedule(log', |batches|, workers)
    ensures Landing(nodes, rels, batches, log) != Landing(nodes, rels, batches, log')
  {
    var i: nat, j: nat, k, q, v, w :| Gives(nodes, batches, i, k, q, v) && Gives(nodes, batches, j, k, q, w) && v != w;
    log, log' := MovedLast(|batches|, i), MovedLast(|batches|, j);
    MovedLastIsSchedule(|batches|, i, workers);
    MovedLastIsSchedule(|batches|, j, workers);
    LastWins(nodes, rels, batches, log, k, q, v);
    LastWins(nodes, rels, batches, log', k, q, w);
  }

  /** A schedule names every batch. */
  lemma ScheduleIsAll(log: seq<nat>, n: nat, workers: nat)
    requires IsSchedule(log, n, workers)
    ensures forall i: nat :: i < n ==> i in log
  {
    AllSeen(log, n);
  }

  lemma SchedulesReorder(log: seq<nat>, log': seq<nat>, n: nat, workers: nat)
    requires IsSchedule(log, n, workers) && IsSchedule(log', n, workers)
    ensures Reordered(log, log')
  {
    ScheduleIsAll(log, n, workers);
    ScheduleIsAll(log', n, workers);
  }

  /** One writer leaves no choice. */
  lemma {:induction false} OneWriterInOrder(log: seq<nat>, n: nat, p: nat)
    requires IsSchedule(log, n, 1) && p < n
    ensures log[p] == p
    decreases p
  {
    if log[p] < p { OneWriterInOrder(log, n, log[p]); }
  }

  ghost predicate SameForAllSchedules(nodes: set<string>, rels: Rels, batches: Batches, workers: nat) {
    forall log, log' :: IsSchedule(log, |batches|, workers) && IsSchedule(log', |batches|, workers)
      ==> Landing(nodes, rels, batches, log) == Landing(nodes, rels, batches, log')
  }

  /**
    * The store a pool of writers leaves is determined, whatever order of completion its window allows, exactly when
    * there is one writer or no two batches conflict.
    */
  lemma OrderIsFreeIff(nodes: set<string>, rels: Rels, batches: Batches, workers: nat)
    requires 0 < workers
    ensures SameForAllSchedules(nodes, rels, batches, workers) <==> workers == 1 || ConflictFree(nodes, batches)
  {
    if workers == 1 {
      forall log, log' | IsSchedule(log, |batches|, 1) && IsSchedule(log', |batches|, 1) ensures log == log' {
        forall p | 0 <= p < |batches| ensures log[p] == log'[p] {
          OneWriterInOrder(log, |batches|, p);
          OneWriterInOrder(log', |batches|, p);
        }
      }
    } else if ConflictFree(nodes, batches) {
      forall log, log' | IsSchedule(log, |batches|, workers) && IsSchedule(log', |batches|, workers)
        ensures Landing(nodes, rels, batches, log) == Landing(nodes, rels, batches, log')
      {
        SchedulesReorder(log, log', |batches|, workers);
        SameStore(nodes, rels, batches, log, log');
      }
    } else {
      var log, log' := ConflictShows(nodes, rels, batches, workers);
    }
  }
}
