/** Writing a lazy list of batches through a bounded pool of writers. */
module BatchScheduler {
  import opened GraphModel
  import opened Relationships

  type Batches = seq<seq<Row>>

  ghost predicate Named(batches: Batches, log: seq<nat>) { forall p :: 0 <= p < |log| ==> log[p] < |batches| }

  /** The store after batches have landed in the order `log` names them. */
  ghost function Landing(nodes: set<string>, rels: Rels, batches: Batches, log: seq<nat>): Rels
    requires Named(batches, log)
  {
    if log == [] then rels
    else var last := |log| - 1; UpsertAll(nodes, Landing(nodes, rels, batches, log[..last]), batches[log[last]])
  }

  ghost predicate Distinct(log: seq<nat>) { forall p, q :: 0 <= p < q < |log| ==> log[p] != log[q] }

  /** Every batch lands once, and batch `log[p]` not before all but `workers - 1` of its predecessors have. */
  ghost predicate IsSchedule(log: seq<nat>, n: nat, workers: nat) {
    && |log| == n && Distinct(log)
    && forall p :: 0 <= p < n ==> log[p] < n && log[p] < p + workers
  }

  /** The rows of the batches below `n` that are in `done`. */
  function RowsIn(batches: Batches, done: set<nat>, n: nat): nat
    requires n <= |batches|
  {
    if n == 0 then 0 else RowsIn(batches, done, n - 1) + if n - 1 in done then |batches[n - 1]| else 0
  }

  lemma {:induction false} RowsAdd(batches: Batches, done: set<nat>, i: nat, n: nat)
    requires n <= |batches| && i !in done
    ensures RowsIn(batches, done + {i}, n) == RowsIn(batches, done, n) + if i < n then |batches[i]| else 0
  {
    if n > 0 { RowsAdd(batches, done, i, n - 1); }
  }

  lemma {:induction false} NoRows(batches: Batches, n: nat)
    requires n <= |batches|
    ensures RowsIn(batches, {}, n) == 0
  {
    if n > 0 { NoRows(batches, n - 1); }
  }

  lemma {:induction false} RowsOfAll(batches: Batches, done: set<nat>, n: nat)
    requires n <= |batches| && forall i :: 0 <= i < n ==> i in done
    ensures RowsIn(batches, done, n) == |Flatten(batches[..n])|
  {
    if n == 0 {
      assert batches[..0] == [];
    } else {
      RowsOfAll(batches, done, n - 1);
      assert batches[..n] == batches[..n - 1] + [batches[n - 1]];
      FlattenConcat(batches[..n - 1], [batches[n - 1]]);
      assert Flatten([batches[n - 1]]) == batches[n - 1];
    }
  }

  /** The pool: batches pulled so far, those in flight, the order they landed in, those collected, and the row count. */
  datatype Pool = Pool(pulled: nat, inFlight: set<nat>, landed: seq<nat>, collected: set<nat>, written: nat)

  /** What the scheduling loop keeps. Rows written and rows in flight make up the rows submitted. */
  ghost predicate Sound(batches: Batches, workers: nat, s: Pool) {
    && s.pulled <= |batches|
    && s.inFlight !! s.collected && (forall i :: i in s.inFlight + s.collected <==> 0 <= i < s.pulled)
    && (forall i :: i in s.collected ==> i in s.landed)
    && |s.collected| + |s.inFlight| == s.pulled <= |s.collected| + workers
    && (s.pulled == |batches| || |s.inFlight| == workers)
    && s.written == RowsIn(batches, s.collected, |batches|)
  }

  ghost predicate Ordered(batches: Batches, workers: nat, s: Pool) {
    && Distinct(s.landed) && |s.collected| <= |s.landed|
    && forall p :: 0 <= p < |s.landed| ==> s.landed[p] < s.pulled && s.landed[p] < p + workers
  }

  /** Rows written plus rows in flight equal rows submitted, and at most `workers` batches are in flight. */
  lemma PoolConserves(batches: Batches, workers: nat, s: Pool)
    requires Sound(batches, workers, s)
    ensures s.written + RowsIn(batches, s.inFlight, |batches|) == |Flatten(batches[..s.pulled])|
    ensures |s.inFlight| <= workers
  {
    assert s.collected + s.inFlight == s.inFlight + s.collected;
    RowsSplit(batches, s.collected, s.inFlight, |batches|);
    RowsBelow(batches, s.collected + s.inFlight, s.pulled, |batches|);
    RowsOfAll(batches, s.collected + s.inFlight, s.pulled);
  }

  lemma {:induction false} RowsSplit(batches: Batches, a: set<nat>, b: set<nat>, n: nat)
    requires n <= |batches| && a !! b
    ensures RowsIn(batches, a + b, n) == RowsIn(batches, a, n) + RowsIn(batches, b, n)
  {
    if n > 0 { RowsSplit(batches, a, b, n - 1); }
  }

  lemma {:induction false} RowsBelow(batches: Batches, a: set<nat>, m: nat, n: nat)
    requires m <= n <= |batches| && forall i :: i in a ==> i < m
    ensures RowsIn(batches, a, n) == RowsIn(batches, a, m)
    decreases n
  {
    if m < n { RowsBelow(batches, a, m, n - 1); }
  }

  function FirstN(n: nat): (s: set<nat>)
    ensures forall i :: i in s <==> 0 <= i < n
    ensures |s| == n
  {
    if n == 0 then {} else FirstN(n - 1) + {n - 1}
  }

  lemma Start(batches: Batches, workers: nat)
    requires 0 < workers
    ensures var k := if workers < |batches| then workers else |batches|;
      var s := Pool(k, FirstN(k), [], {}, 0);
      Sound(batches, workers, s) && Ordered(batches, workers, s)
  {
    NoRows(batches, |batches|);
    var k := if workers < |batches| then workers else |batches|;
    assert FirstN(k) + {} == FirstN(k);
  }

  /** A batch in flight lands. */
  function Land(s: Pool, i: nat): Pool { s.(landed := s.landed + [i]) }

  lemma LandKeeps(batches: Batches, workers: nat, s: Pool, i: nat)
    requires Sound(batches, workers, s) && Ordered(batches, workers, s)
    requires i in s.inFlight && i !in s.landed
    ensures Sound(batches, workers, Land(s, i)) && Ordered(batches, workers, Land(s, i))
  {
    assert i in s.inFlight + s.collected;
  }

  /** A landed batch is collected, and the next one, if any, takes its place. */
  function Collect(batches: Batches, s: Pool, i: nat): Pool
    requires i < |batches|
  {
    var t := s.(written := s.written + |batches[i]|, inFlight := s.inFlight - {i}, collected := s.collected + {i});
    if s.pulled < |batches| then t.(pulled := s.pulled + 1, inFlight := t.inFlight + {s.pulled}) else t
  }

  lemma CollectKeeps(batches: Batches, workers: nat, s: Pool, i: nat)
    requires Sound(batches, workers, s) && Ordered(batches, workers, s)
    requires i in s.inFlight && i in s.landed
    ensures i < |batches| && Sound(batches, workers, Collect(batches, s, i))
      && Ordered(batches, workers, Collect(batches, s, i))
  {
    assert i in s.inFlight + s.collected;
    CollectSound(batches, workers, s, i);
    CollectedLanded(s.collected + {i}, s.landed);
  }

  lemma CollectSound(batches: Batches, workers: nat, s: Pool, i: nat)
    requires Sound(batches, workers, s) && i in s.inFlight && i in s.landed && i < |batches|
    ensures Sound(batches, workers, Collect(batches, s, i))
  {
    RowsAdd(batches, s.collected, i, |batches|);
    assert |s.inFlight - {i}| == |s.inFlight| - 1 && |s.collected + {i}| == |s.collected| + 1;
    if s.pulled < |batches| {
      assert s.pulled !in s.inFlight + s.collected;
      assert |(s.inFlight - {i}) + {s.pulled}| == |s.inFlight|;
    }
    MembersMove(s.inFlight, s.collected, i, s.pulled);
  }

  lemma MembersMove(inFlight: set<nat>, collected: set<nat>, i: nat, next: nat)
    requires i in inFlight
    ensures (inFlight - {i}) + (collected + {i}) == inFlight + collected
    ensures ((inFlight - {i}) + {next}) + (collected + {i}) == (inFlight + collected) + {next}
  {
  }

  lemma {:induction false} CollectedLanded(c: set<nat>, log: seq<nat>)
    requires forall i :: i in c ==> i in log
    ensures |c| <= |log|
    decreases |log|
  {
    if log == [] {
      assert c == {};
    } else {
      var rest, x := log[..|log| - 1], log[|log| - 1];
      assert log == rest + [x];
      CollectedLanded(c - {x}, rest);
    }
  }

  lemma Finished(batches: Batches, workers: nat, s: Pool)
    requires 0 < workers && Sound(batches, workers, s) && Ordered(batches, workers, s) && s.inFlight == {}
    ensures IsSchedule(s.landed, |batches|, workers) && s.written == |Flatten(batches)|
  {
    assert s.inFlight + s.collected == s.collected;
    RowsOfAll(batches, s.collected, |batches|);
    assert batches[..|batches|] == batches;
    AtMost(s.landed, |batches|);
  }

  /** Distinct numbers below `n` are at most `n`. */
  lemma AtMost(log: seq<nat>, n: nat)
    requires Distinct(log) && forall p :: 0 <= p < |log| ==> log[p] < n
    ensures |log| <= n
  {
    var seen := Seen(log);
    Spread(log);
    Fewer(seen, FirstN(n));
  }

  lemma {:induction false} Fewer(a: set<nat>, b: set<nat>)
    requires a <= b
    ensures |a| <= |b|
  {
    if a != {} {
      var x :| x in a;
      Fewer(a - {x}, b - {x});
    }
  }

  ghost function Seen(log: seq<nat>): set<nat> { set i: nat | i in log }

  lemma {:induction false} Spread(log: seq<nat>)
    requires Distinct(log)
    ensures |Seen(log)| == |log|
  {
    if log != [] {
      var rest, x := log[..|log| - 1], log[|log| - 1];
      assert log == rest + [x];
      Spread(rest);
      assert Seen(log) == Seen(rest) + {x};
      assert x !in Seen(rest);
    }
  }

  // ---- which orders can happen -------------------------------------------

  function FirstPool(batches: Batches, workers: nat): Pool {
    var k := if workers < |batches| then workers else |batches|;
    Pool(k, FirstN(k), [], {}, 0)
  }

  /** The pool after `steps` landings and collections, in any order the two allow. */
  ghost predicate Reached(batches: Batches, workers: nat, s: Pool, steps: nat)
    decreases steps
  {
    if steps == 0 then s == FirstPool(batches, workers)
    else exists before, i :: Reached(batches, workers, before, steps - 1) && Moves(batches, before, i, s)
  }

  ghost predicate Moves(batches: Batches, before: Pool, i: nat, s: Pool) {
    i in before.inFlight && i < |batches|
    && ((i !in before.landed && s == Land(before, i)) || (i in before.landed && s == Collect(batches, before, i)))
  }

  /** The pool once the first `k` batches of a schedule have landed and been collected. */
  ghost predicate Follows(batches: Batches, workers: nat, log: seq<nat>, k: nat, s: Pool)
    requires k <= |log|
  {
    && s.landed == log[..k] && s.collected == Seen(log[..k])
    && s.pulled == (if k + workers < |batches| then k + workers else |batches|)
    && (forall i :: i in s.inFlight <==> 0 <= i < s.pulled && i !in s.collected)
  }

  lemma ReachedNext(batches: Batches, workers: nat, before: Pool, steps: nat, i: nat, s: Pool)
    requires Reached(batches, workers, before, steps) && Moves(batches, before, i, s)
    ensures Reached(batches, workers, s, steps + 1)
  {
  }

  /** Each batch in its turn lands and is collected. */
  ghost function PoolAt(batches: Batches, workers: nat, log: seq<nat>, k: nat): Pool
    requires Named(batches, log) && k <= |log|
  {
    if k == 0 then FirstPool(batches, workers)
    else Collect(batches, Land(PoolAt(batches, workers, log, k - 1), log[k - 1]), log[k - 1])
  }

  lemma {:induction false} PoolAtFollows(batches: Batches, workers: nat, log: seq<nat>, k: nat)
    requires IsSchedule(log, |batches|, workers) && k <= |log|
    ensures Follows(batches, workers, log, k, PoolAt(batches, workers, log, k))
  {
    if k == 0 {
      FollowsStart(batches, workers, log);
    } else {
      PoolAtFollows(batches, workers, log, k - 1);
      FollowsNext(batches, workers, log, k - 1, PoolAt(batches, workers, log, k - 1));
    }
  }

  /** Some run of the pool comes to `s`. */
  ghost predicate CanReach(batches: Batches, workers: nat, s: Pool) {
    exists steps: nat :: Reached(batches, workers, s, steps)
  }

  lemma LandThenCollect(batches: Batches, workers: nat, s: Pool, i: nat)
    requires CanReach(batches, workers, s) && i in s.inFlight && i !in s.landed && i < |batches|
    ensures CanReach(batches, workers, Collect(batches, Land(s, i), i))
  {
    var steps: nat :| Reached(batches, workers, s, steps);
    ReachedNext(batches, workers, s, steps, i, Land(s, i));
    ReachedNext(batches, workers, Land(s, i), steps + 1, i, Collect(batches, Land(s, i), i));
  }

  lemma {:induction false} PoolAtReached(batches: Batches, workers: nat, log: seq<nat>, k: nat)
    requires IsSchedule(log, |batches|, workers) && k <= |log|
    ensures CanReach(batches, workers, PoolAt(batches, workers, log, k))
  {
    if k == 0 {
      assert Reached(batches, workers, FirstPool(batches, workers), 0);
    } else {
      var before := PoolAt(batches, workers, log, k - 1);
      PoolAtReached(batches, workers, log, k - 1);
      PoolAtFollows(batches, workers, log, k - 1);
      FollowsNext(batches, workers, log, k - 1, before);
      LandThenCollect(batches, workers, before, log[k - 1]);
    }
  }

  /** Every schedule is an order in which the pool can land its batches. */
  lemma ScheduleHappens(batches: Batches, workers: nat, log: seq<nat>) returns (s: Pool)
    requires IsSchedule(log, |batches|, workers)
    ensures CanReach(batches, workers, s) && s.landed == log && s.inFlight == {}
  {
    s := PoolAt(batches, workers, log, |log|);
    PoolAtReached(batches, workers, log, |log|);
    PoolAtFollows(batches, workers, log, |log|);
    assert log[..|log|] == log;
    AllSeen(log, |batches|);
    assert forall i :: i in s.inFlight ==> i in s.collected;
  }

  lemma FollowsStart(batches: Batches, workers: nat, log: seq<nat>)
    ensures Follows(batches, workers, log, 0, FirstPool(batches, workers))
  {
    assert log[..0] == [] && Seen([]) == {};
  }

  lemma FollowsNext(batches: Batches, workers: nat, log: seq<nat>, k: nat, s: Pool)
    requires IsSchedule(log, |batches|, workers) && k < |log| && Follows(batches, workers, log, k, s)
    ensures log[k] in s.inFlight && log[k] !in s.landed && log[k] < |batches|
    ensures Follows(batches, workers, log, k + 1, Collect(batches, Land(s, log[k]), log[k]))
  {
    assert log[k] !in log[..k];
    assert log[..k + 1] == log[..k] + [log[k]];
    assert Seen(log[..k + 1]) == Seen(log[..k]) + {log[k]};
  }

  /** As many distinct numbers below `n` as there are leave none out. */
  lemma AllSeen(log: seq<nat>, n: nat)
    requires Distinct(log) && |log| == n && forall p :: 0 <= p < n ==> log[p] < n
    ensures forall i: nat :: i < n ==> i in log
  {
    Spread(log);
    forall i: nat | i < n ensures i in log {
      if i !in log {
        assert Seen(log) <= FirstN(n) - {i};
        Fewer(Seen(log), FirstN(n) - {i});
      }
    }
  }

  lemma LandingNext(nodes: set<string>, rels: Rels, batches: Batches, log: seq<nat>, i: nat)
    requires i < |batches| && Named(batches, log)
    ensures Named(batches, log + [i])
      && Landing(nodes, rels, batches, log + [i]) == UpsertAll(nodes, Landing(nodes, rels, batches, log), batches[i])
  {
    assert (log + [i])[..|log|] == log;
  }

  /** The store, as far as relationships go. */
  class Database {
    var nodes: set<string>
    var rels: Rels

    constructor (nodes: set<string>)
      ensures this.nodes == nodes && rels == map[]
    {
      this.nodes, rels := nodes, map[];
    }

    /** One transaction. */
    method Transact(rows: seq<Row>)
      modifies this`rels
      ensures rels == UpsertAll(nodes, old(rels), rows)
    {
      rels := UpsertAll(nodes, rels, rows);
    }

    method WriteSequentially(batches: Batches) returns (written: nat)
      modifies this`rels
      ensures rels == UpsertAll(nodes, old(rels), Flatten(batches)) && written == |Flatten(batches)|
    {
      written := 0;
      for i := 0 to |batches|
        invariant rels == UpsertAll(nodes, old(rels), Flatten(batches[..i])) && written == |Flatten(batches[..i])|
      {
        assert batches[..i + 1] == batches[..i] + [batches[i]];
        FlattenConcat(batches[..i], [batches[i]]);
        assert Flatten([batches[i]]) == batches[i];
        UpsertConcat(nodes, old(rels), Flatten(batches[..i]), batches[i]);
        Transact(batches[i]);
        written := written + |batches[i]|;
      }
      assert batches[..|batches|] == batches;
    }

    /** Whichever transactions happen to commit while the caller waits; at least one has committed when it returns. */
    method Wait(batches: Batches, workers: nat, s: Pool, ghost before: Rels) returns (s': Pool, done: set<nat>)
      requires Sound(batches, workers, s) && Ordered(batches, workers, s) && s.inFlight != {}
      requires Named(batches, s.landed) && rels == Landing(nodes, before, batches, s.landed)
      modifies this`rels
      ensures Sound(batches, workers, s') && Ordered(batches, workers, s')
      ensures Named(batches, s'.landed) && rels == Landing(nodes, before, batches, s'.landed)
      ensures done != {} && done <= s'.inFlight && forall i :: i in done ==> i in s'.landed
      ensures s' == s.(landed := s'.landed)
    {
      s', done := s, {};
      var rest := s.inFlight;
      while rest != {} || done == {}
        invariant rest <= s.inFlight && (rest == {} ==> done != {})
        invariant Sound(batches, workers, s') && Ordered(batches, workers, s') && s' == s.(landed := s'.landed)
        invariant Named(batches, s'.landed) && rels == Landing(nodes, before, batches, s'.landed)
        invariant done <= s.inFlight && forall i :: i in done ==> i in s'.landed
        decreases rest
      {
        var i :| i in rest;
        rest := rest - {i};
        var commits := *;
        if i !in s'.landed && (commits || (rest == {} && done == {})) {
          s' := CommitOne(batches, workers, s', i, before);
        }
        var collects := *;
        if i in s'.landed && (collects || (rest == {} && done == {})) {
          done := done + {i};
        }
      }
    }

    method CommitOne(batches: Batches, workers: nat, s: Pool, i: nat, ghost before: Rels) returns (s': Pool)
      requires Sound(batches, workers, s) && Ordered(batches, workers, s) && i in s.inFlight && i !in s.landed
      requires Named(batches, s.landed) && rels == Landing(nodes, before, batches, s.landed)
      modifies this`rels
      ensures s' == Land(s, i) && Sound(batches, workers, s') && Ordered(batches, workers, s')
      ensures Named(batches, s'.landed) && rels == Landing(nodes, before, batches, s'.landed)
    {
      LandKeeps(batches, workers, s, i);
      assert i in s.inFlight + s.collected;
      LandingNext(nodes, before, batches, s.landed, i);
      Transact(batches[i]);
      s' := Land(s, i);
    }

    method CollectAll(batches: Batches, workers: nat, s: Pool, done: set<nat>) returns (s': Pool)
      requires Sound(batches, workers, s) && Ordered(batches, workers, s)
      requires done != {} && done <= s.inFlight && forall i :: i in done ==> i in s.landed
      ensures Sound(batches, workers, s') && Ordered(batches, workers, s')
      ensures s'.landed == s.landed && |s.collected| < |s'.collected|
    {
      s' := s;
      var rest := done;
      while rest != {}
        invariant rest <= s'.inFlight && forall i :: i in rest ==> i in s.landed
        invariant Sound(batches, workers, s') && Ordered(batches, workers, s') && s'.landed == s.landed
        invariant |s.collected| <= |s'.collected| && (rest != done ==> |s.collected| < |s'.collected|)
        invariant rest <= done
        decreases rest
      {
        var i :| i in rest;
        rest := rest - {i};
        CollectKeeps(batches, workers, s', i);
        s' := Collect(batches, s', i);
      }
    }

    /** Pulls the batches in order, keeps at most `workers` of them in flight, and collects until none is left. */
    method WriteInParallel(batches: Batches, workers: nat) returns (written: nat, ghost log: seq<nat>)
      requires 0 < workers
      modifies this`rels
      ensures IsSchedule(log, |batches|, workers) && rels == Landing(nodes, old(rels), batches, log)
      ensures written == |Flatten(batches)|
    {
      var k := if workers < |batches| then workers else |batches|;
      var s := Pool(k, FirstN(k), [], {}, 0);
      Start(batches, workers);
      while s.inFlight != {}
        invariant Sound(batches, workers, s) && Ordered(batches, workers, s)
        invariant Named(batches, s.landed) && rels == Landing(nodes, old(rels), batches, s.landed)
        decreases |batches| - |s.collected|
      {
        var done;
        ghost var before := s;
        s, done := Wait(batches, workers, s, old(rels));
        s := CollectAll(batches, workers, s, done);
      }
      Finished(batches, workers, s);
      written, log := s.written, s.landed;
    }
  }
}
