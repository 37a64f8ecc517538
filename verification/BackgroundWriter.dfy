/** The background writer: a producer, a bounded first-in first-out queue and a writer thread that may fail. */
module BackgroundWriter {
  import opened GraphModel
  import opened StreamSink

  /** One call on the store. */
  datatype Op = WriteNodes(nodes: seq<Node>) | WriteEdges(edges: seq<Edge>)

  function NodeOps(item: Item): seq<Op> { if item.nodes != [] then [WriteNodes(item.nodes)] else [] }
  function EdgeOps(item: Item): seq<Op> { if item.edges != [] then [WriteEdges(item.edges)] else [] }

  /** What applying the items one by one, nodes before edges, asks of the store. */
  function AllOps(items: seq<Item>): seq<Op> {
    if items == [] then []
    else AllOps(items[..|items| - 1]) + NodeOps(items[|items| - 1]) + EdgeOps(items[|items| - 1])
  }

  /** Where the producer stands: before the failure check of the next enqueue, blocked in that enqueue, about to send
      the end mark, waiting for the thread to end, or past it. */
  datatype Producer = Checking | Putting | Closing | Joining | Completed | Raised

  /** The thread waits for an item, is about to write its nodes or its edges, or has ended. */
  datatype Writer = Idle | AtNodes(item: Item) | AtEdges(item: Item) | Ended

  /** `sent` items were enqueued and `taken` of them dequeued; `ending` says that the end mark stands behind the
      queued items. */
  datatype State = State(
    producer: Producer, raising: bool, sent: nat, queue: seq<Item>, ending: bool,
    writer: Writer, taken: nat, failed: bool, log: seq<Op>)

  const CAPACITY := 3

  function Init(): State { State(Checking, false, 0, [], false, Idle, 0, false, []) }

  predicate Full(s: State) { |s.queue| + (if s.ending then 1 else 0) >= CAPACITY }

  datatype Move =
    | Check | Abort | Put | Finish | PutEnd | Join      // producer
    | Get | Write | Fail                                 // writer

  predicate Enabled(items: seq<Item>, s: State, m: Move) {
    match m
    case Check => s.producer == Checking && s.sent < |items|
    case Abort => s.producer == Checking
    case Put => s.producer == Putting && s.sent < |items| && !Full(s)
    case Finish => s.producer == Checking && s.sent == |items|
    case PutEnd => s.producer == Closing && !Full(s)
    case Join => s.producer == Joining && s.writer == Ended
    case Get => s.writer == Idle && (s.queue != [] || s.ending)
    case Write => s.writer.AtNodes? || s.writer.AtEdges?
    case Fail => (s.writer.AtNodes? && s.writer.item.nodes != []) || (s.writer.AtEdges? && s.writer.item.edges != [])
  }

  function Apply(items: seq<Item>, s: State, m: Move): State
    requires Enabled(items, s, m)
  {
    match m
    case Check => if s.failed then s.(producer := Closing, raising := true) else s.(producer := Putting)
    case Abort => s.(producer := Closing, raising := true)
    case Put => s.(producer := Checking, sent := s.sent + 1, queue := s.queue + [items[s.sent]])
    case Finish => s.(producer := Closing)
    case PutEnd => s.(producer := Joining, ending := true)
    case Join => s.(producer := if s.raising || s.failed then Raised else Completed)
    case Get => if s.queue != [] then s.(queue := s.queue[1..], writer := AtNodes(s.queue[0]), taken := s.taken + 1)
                else s.(ending := false, writer := Ended)
    case Write => if s.writer.AtNodes? then s.(log := s.log + NodeOps(s.writer.item), writer := AtEdges(s.writer.item))
                  else s.(log := s.log + EdgeOps(s.writer.item), writer := Idle)
    case Fail => s.(failed := true, writer := Idle)
  }

  /** Where a run leads: any interleaving of the two sides, failing or aborting anywhere. */
  function After(items: seq<Item>, moves: seq<Move>): Option<State> {
    if moves == [] then Some(Init())
    else match After(items, moves[..|moves| - 1])
      case Some(s) => if Enabled(items, s, moves[|moves| - 1]) then Some(Apply(items, s, moves[|moves| - 1])) else None
      case None => None
  }

  /** Some run comes to `s`. */
  ghost predicate Reachable(items: seq<Item>, s: State) { exists moves :: After(items, moves) == Some(s) }

  lemma Advance(items: seq<Item>, s: State, m: Move) returns (s': State)
    requires Reachable(items, s) && Enabled(items, s, m)
    ensures s' == Apply(items, s, m) && Reachable(items, s')
  {
    s' := Apply(items, s, m);
    var moves :| After(items, moves) == Some(s);
    assert (moves + [m])[..|moves|] == moves;
    assert After(items, moves + [m]) == Some(s');
  }

  lemma StartReachable(items: seq<Item>)
    ensures Reachable(items, Init())
  {
    assert After(items, []) == Some(Init());
  }

  predicate Finished(s: State) { s.producer == Completed || s.producer == Raised }

  predicate EndSent(s: State) { s.producer == Joining || Finished(s) }

  /** What is left to do of the item in the thread's hand. */
  function InHand(w: Writer): seq<Op> {
    match w
    case AtNodes(item) => NodeOps(item) + EdgeOps(item)
    case AtEdges(item) => EdgeOps(item)
    case _ => []
  }

  /** The queue holds exactly the items sent and not yet taken, in order. */
  ghost predicate QueueFits(items: seq<Item>, s: State) {
    s.taken <= s.sent <= |items| && s.queue == items[s.taken..s.sent]
  }

  ghost predicate HandFits(items: seq<Item>, s: State) {
    s.writer.AtNodes? || s.writer.AtEdges? ==> 0 < s.taken <= |items| && s.writer.item == items[s.taken - 1]
  }

  /** Until something fails, what is written and what is in hand are the operations of the items taken. */
  ghost predicate LogFits(items: seq<Item>, s: State) {
    s.taken <= |items| && (!s.failed ==> s.log + InHand(s.writer) == AllOps(items[..s.taken]))
  }

  /** The queue is bounded, and the end mark is behind it once it is put, until it is taken. */
  ghost predicate EndFits(s: State) {
    && |s.queue| + (if s.ending then 1 else 0) <= CAPACITY
    && (EndSent(s) <==> s.ending || s.writer == Ended)
    && (s.writer == Ended ==> !s.ending && s.taken == s.sent)
    && (Finished(s) ==> s.writer == Ended)
  }

  /** A producer that raises nothing closes once it has sent everything. */
  ghost predicate ProducerFits(items: seq<Item>, s: State) {
    && (s.producer == Putting ==> s.sent < |items|)
    && ((s.producer == Closing || s.producer == Joining) && !s.raising ==> s.sent == |items|)
    && (s.producer == Completed ==> !s.failed && s.sent == |items|)
  }

  ghost predicate Inv(items: seq<Item>, s: State) {
    QueueFits(items, s) && EndFits(s) && ProducerFits(items, s) && HandFits(items, s) && LogFits(items, s)
  }

  lemma EndNext(items: seq<Item>, s: State, m: Move)
    requires Enabled(items, s, m) && QueueFits(items, s) && EndFits(s)
    ensures EndFits(Apply(items, s, m))
  {
    if m == Get && s.queue == [] { assert items[s.taken..s.sent] == []; }
  }

  lemma ProducerNext(items: seq<Item>, s: State, m: Move)
    requires Enabled(items, s, m) && EndFits(s) && ProducerFits(items, s)
    ensures ProducerFits(items, Apply(items, s, m))
  {
  }

  lemma QueueNext(items: seq<Item>, s: State, m: Move)
    requires Enabled(items, s, m) && QueueFits(items, s)
    ensures QueueFits(items, Apply(items, s, m))
  {
    if m == Put {
      assert items[s.taken..s.sent + 1] == items[s.taken..s.sent] + [items[s.sent]];
    }
  }

  lemma HandNext(items: seq<Item>, s: State, m: Move)
    requires Enabled(items, s, m) && QueueFits(items, s) && HandFits(items, s)
    ensures HandFits(items, Apply(items, s, m))
  {
  }

  lemma OpsNext(items: seq<Item>, k: nat)
    requires k < |items|
    ensures AllOps(items[..k + 1]) == AllOps(items[..k]) + (NodeOps(items[k]) + EdgeOps(items[k]))
  {
    assert items[..k + 1][..k] == items[..k];
  }

  lemma LogAfterGet(items: seq<Item>, s: State)
    requires s.writer == Idle && s.queue != [] && QueueFits(items, s) && LogFits(items, s)
    ensures LogFits(items, Apply(items, s, Get))
  {
    assert s.queue[0] == items[s.taken];
    OpsNext(items, s.taken);
    assert s.log + [] == s.log;
  }

  lemma LogNext(items: seq<Item>, s: State, m: Move)
    requires Enabled(items, s, m) && QueueFits(items, s) && HandFits(items, s) && LogFits(items, s)
    ensures LogFits(items, Apply(items, s, m))
  {
    if m == Get && s.queue != [] {
      LogAfterGet(items, s);
    }
  }

  lemma InvNext(items: seq<Item>, s: State, m: Move)
    requires Inv(items, s) && Enabled(items, s, m)
    ensures Inv(items, Apply(items, s, m))
  {
    QueueNext(items, s, m);
    EndNext(items, s, m);
    ProducerNext(items, s, m);
    HandNext(items, s, m);
    LogNext(items, s, m);
  }

  lemma InvInit(items: seq<Item>)
    ensures Inv(items, Init())
  {
    assert items[..0] == [];
  }

  lemma {:induction false} InvAfter(items: seq<Item>, moves: seq<Move>)
    ensures After(items, moves).Some? ==> Inv(items, After(items, moves).value)
  {
    if moves == [] {
      InvInit(items);
    } else {
      var before := After(items, moves[..|moves| - 1]);
      InvAfter(items, moves[..|moves| - 1]);
      if before.Some? && Enabled(items, before.value, moves[|moves| - 1]) {
        InvNext(items, before.value, moves[|moves| - 1]);
      }
    }
  }

  lemma InvReachable(items: seq<Item>, s: State)
    requires Reachable(items, s)
    ensures Inv(items, s)
  {
    var moves :| After(items, moves) == Some(s);
    InvAfter(items, moves);
  }

  /** If the stage completes without raising, the store saw exactly the enqueued items, in order. */
  lemma CompletionDelivers(items: seq<Item>, s: State)
    requires Reachable(items, s) && s.producer == Completed
    ensures s.log == AllOps(items)
  {
    InvReachable(items, s);
    assert items[..|items|] == items;
  }

  /** As long as one side has not finished some step is possible, and one that neither fails nor aborts. */
  lemma NoDeadlock(items: seq<Item>, s: State) returns (m: Move)
    requires Reachable(items, s) && !Finished(s)
    ensures Enabled(items, s, m) && m != Fail && m != Abort
  {
    InvReachable(items, s);
    if s.writer.AtNodes? || s.writer.AtEdges? {
      m := Write;
    } else if s.producer == Checking {
      m := if s.sent < |items| then Check else Finish;
    } else if s.writer == Ended {
      m := Join;
    } else if s.queue != [] || s.ending {
      m := Get;
    } else {
      m := if s.producer == Putting then Put else PutEnd;
    }
  }

  // ---- every run ends --------------------------------------------------------

  /** An upper bound on the steps still to come. */
  function Rank(items: seq<Item>, s: State): int {
    (match s.producer case Checking => 8 * (|items| - s.sent) + 7 case Putting => 8 * (|items| - s.sent) + 6
       case Closing => 5 case Joining => 1 case _ => 0)
    + 4 * |s.queue| + (if s.ending then 2 else 0)
    + (match s.writer case AtNodes(_) => 2 case AtEdges(_) => 1 case _ => 0)
  }

  /** Every step brings the end nearer. */
  lemma EveryStepAdvances(items: seq<Item>, s: State, m: Move)
    requires Reachable(items, s) && Enabled(items, s, m)
    ensures 0 <= Rank(items, Apply(items, s, m)) < Rank(items, s)
  {
    InvReachable(items, s);
  }

  /** No run is longer than eight steps an item and seven more. */
  lemma {:induction false} RunsAreBounded(items: seq<Item>, moves: seq<Move>)
    requires After(items, moves).Some?
    ensures 0 <= Rank(items, After(items, moves).value) && Rank(items, After(items, moves).value)
      + |moves| <= 8 * |items| + 7
    decreases |moves|
  {
    if moves != [] {
      var rest, m := moves[..|moves| - 1], moves[|moves| - 1];
      RunsAreBounded(items, rest);
      assert Reachable(items, After(items, rest).value);
      EveryStepAdvances(items, After(items, rest).value, m);
    }
  }

  // ---- endpoints before edges ---------------------------------------------------

  /** The sink's side of the bargain: an edge names only nodes known before or handed over no later than with it. */
  ghost predicate EndpointsFirst(items: seq<Item>, ids: set<string>) {
    forall i, e :: 0 <= i < |items| && e in items[i].edges ==>
      e.src in ids + IdsOf(NodesIn(items[..i + 1])) && e.dst in ids + IdsOf(NodesIn(items[..i + 1]))
  }

  function Stored(log: seq<Op>): seq<Node> {
    if log == [] then []
    else Stored(log[..|log| - 1]) + match log[|log| - 1] case WriteNodes(ns) => ns case WriteEdges(_) => []
  }

  lemma {:induction false} StoredConcat(a: seq<Op>, b: seq<Op>)
    ensures Stored(a + b) == Stored(a) + Stored(b)
  {
    if b == [] {
      assert a + b == a;
    } else {
      assert (a + b)[..|a + b| - 1] == a + b[..|b| - 1];
      StoredConcat(a, b[..|b| - 1]);
    }
  }

  lemma StoredItem(item: Item)
    ensures Stored(NodeOps(item)) == item.nodes && Stored(EdgeOps(item)) == []
  {
    assert [WriteNodes(item.nodes)][..0] == [] && [WriteEdges(item.edges)][..0] == [];
  }

  lemma {:induction false} StoredAll(items: seq<Item>)
    ensures Stored(AllOps(items)) == NodesIn(items)
  {
    if items != [] {
      var rest, last := items[..|items| - 1], items[|items| - 1];
      StoredAll(rest);
      StoredConcat(AllOps(rest) + NodeOps(last), EdgeOps(last));
      StoredConcat(AllOps(rest), NodeOps(last));
      StoredItem(last);
    }
  }

  /** While nothing has failed, whenever edges are about to be written both endpoints of each are in the store. */
  lemma EndpointsAreStored(items: seq<Item>, ids: set<string>, s: State)
    requires Reachable(items, s) && EndpointsFirst(items, ids)
    requires !s.failed && s.writer.AtEdges?
    ensures forall e :: e in s.writer.item.edges ==>
      e.src in ids + IdsOf(Stored(s.log)) && e.dst in ids + IdsOf(Stored(s.log))
  {
    InvReachable(items, s);
    StoredConcat(s.log, EdgeOps(s.writer.item));
    StoredItem(s.writer.item);
    StoredAll(items[..s.taken]);
    assert Stored(s.log) == NodesIn(items[..s.taken]);
    assert items[..s.taken - 1 + 1] == items[..s.taken];
  }

  // ---- endpoints after a failure ---------------------------------------------------

  /** On every run, failing or not, whenever edges are about to be written both endpoints of each are in the store. */
  ghost predicate KeepsEndpoints(items: seq<Item>, ids: set<string>) {
    forall s :: Reachable(items, s) && s.writer.AtEdges? ==> EdgesOnStored(s.writer.item, ids, s.log)
  }

  ghost predicate EdgesOnStored(item: Item, ids: set<string>, log: seq<Op>) {
    forall e :: e in item.edges ==> e.src in ids + IdsOf(Stored(log)) && e.dst in ids + IdsOf(Stored(log))
  }

  /** How far behind a failed item the producer may still enqueue: the queue, and the put it is blocked in. */
  const REACH: nat := CAPACITY + 1

  /** `v` is known before the stage, comes with item `i`, or came more than `REACH` items earlier. */
  ghost predicate SafelyNamed(items: seq<Item>, ids: set<string>, i: nat, v: string)
    requires i < |items|
  {
    v in ids || v in IdsOf(items[i].nodes) || exists k :: 0 <= k && k + REACH < i && v in IdsOf(items[k].nodes)
  }

  ghost predicate NamesSafely(items: seq<Item>, ids: set<string>) {
    forall i, e :: 0 <= i < |items| && e in items[i].edges ==>
      SafelyNamed(items, ids, i, e.src) && SafelyNamed(items, ids, i, e.dst)
  }

  /** The items the producer has enqueued or is about to, past any failure check. */
  function Committed(s: State): nat { s.sent + if s.producer == Putting then 1 else 0 }

  /** The items whose nodes have been written or lost. */
  function NodesDone(s: State): int { s.taken - if s.writer.AtNodes? then 1 else 0 }

  /** Item `k`'s nodes are stored, or the producer has not got far beyond it. */
  ghost predicate StoredOrNear(items: seq<Item>, s: State, k: int)
    requires 0 <= k < |items|
  {
    IdsOf(items[k].nodes) <= IdsOf(Stored(s.log)) || (s.failed && Committed(s) <= k + REACH + 1)
  }

  ghost predicate LossIsNear(items: seq<Item>, s: State) {
    && s.taken <= |items|
    && (forall k :: 0 <= k < NodesDone(s) ==> StoredOrNear(items, s, k))
    && (s.writer.AtEdges? ==> IdsOf(s.writer.item.nodes) <= IdsOf(Stored(s.log)))
  }

  lemma StoredGrows(log: seq<Op>, more: seq<Op>)
    ensures IdsOf(Stored(log + more)) == IdsOf(Stored(log)) + IdsOf(Stored(more))
  {
    StoredConcat(log, more);
    IdsConcat(Stored(log), Stored(more));
  }

  /** Writing more stores no less. */
  lemma NearGrows(items: seq<Item>, s: State, more: seq<Op>, w: Writer, k: nat)
    requires k < |items| && StoredOrNear(items, s, k)
    ensures StoredOrNear(items, s.(log := s.log + more, writer := w), k)
  {
    StoredGrows(s.log, more);
  }

  lemma LossAfterNodes(items: seq<Item>, s: State)
    requires HandFits(items, s) && LossIsNear(items, s) && s.writer.AtNodes?
    ensures LossIsNear(items, s.(log := s.log + NodeOps(s.writer.item), writer := AtEdges(s.writer.item)))
  {
    var item := s.writer.item;
    StoredItem(item);
    StoredGrows(s.log, NodeOps(item));
    forall k | 0 <= k < s.taken - 1
      ensures StoredOrNear(items, s.(log := s.log + NodeOps(item), writer := AtEdges(item)), k)
    {
      assert 0 <= k < NodesDone(s);
      NearGrows(items, s, NodeOps(item), AtEdges(item), k);
    }
  }

  lemma LossAfterEdges(items: seq<Item>, s: State)
    requires LossIsNear(items, s) && s.writer.AtEdges?
    ensures LossIsNear(items, s.(log := s.log + EdgeOps(s.writer.item), writer := Idle))
  {
    var item := s.writer.item;
    forall k | 0 <= k < s.taken ensures StoredOrNear(items, s.(log := s.log + EdgeOps(item), writer := Idle), k) {
      assert 0 <= k < NodesDone(s);
      NearGrows(items, s, EdgeOps(item), Idle, k);
    }
  }

  lemma LossAfterFail(items: seq<Item>, s: State)
    requires Inv(items, s) && LossIsNear(items, s) && Enabled(items, s, Fail)
    ensures LossIsNear(items, Apply(items, s, Fail))
  {
    var s' := Apply(items, s, Fail);
    assert |s.queue| == s.sent - s.taken;
    forall k | 0 <= k < NodesDone(s') ensures StoredOrNear(items, s', k) {
      if k < NodesDone(s) { assert StoredOrNear(items, s, k); }
    }
  }

  lemma LossNext(items: seq<Item>, s: State, m: Move)
    requires Inv(items, s) && LossIsNear(items, s) && Enabled(items, s, m)
    ensures LossIsNear(items, Apply(items, s, m))
  {
    if m == Write {
      if s.writer.AtNodes? { LossAfterNodes(items, s); } else { LossAfterEdges(items, s); }
    } else if m == Fail {
      LossAfterFail(items, s);
    } else {
      var s' := Apply(items, s, m);
      forall k | 0 <= k < NodesDone(s') ensures StoredOrNear(items, s', k) {
        assert StoredOrNear(items, s, k);
      }
    }
  }

  lemma {:induction false} LossAfter(items: seq<Item>, moves: seq<Move>)
    ensures After(items, moves).Some? ==> LossIsNear(items, After(items, moves).value)
  {
    if moves != [] {
      var rest, m := moves[..|moves| - 1], moves[|moves| - 1];
      LossAfter(items, rest);
      InvAfter(items, rest);
      if After(items, rest).Some? && Enabled(items, After(items, rest).value, m) {
        LossNext(items, After(items, rest).value, m);
      }
    }
  }

  lemma SafeNamesAreStored(items: seq<Item>, ids: set<string>, s: State, v: string)
    requires Reachable(items, s) && s.writer.AtEdges? && 0 < s.taken <= |items|
      && SafelyNamed(items, ids, s.taken - 1, v)
    ensures v in ids + IdsOf(Stored(s.log))
  {
    InvReachable(items, s);
    var moves :| After(items, moves) == Some(s);
    LossAfter(items, moves);
    if v !in ids && v !in IdsOf(items[s.taken - 1].nodes) {
      var k :| 0 <= k && k + REACH < s.taken - 1 && v in IdsOf(items[k].nodes);
      assert StoredOrNear(items, s, k);
    }
  }

  // ---- the run that loses as much as possible -------------------------------------------

  /** Everything so far is written, and nothing has failed. */
  predicate Clean(items: seq<Item>, s: State, k: nat) {
    k <= |items| && s == State(Checking, false, k, [], false, Idle, k, false, s.log)
  }

  lemma PutOne(items: seq<Item>, s: State) returns (s': State)
    requires Reachable(items, s) && s.producer == Checking && s.sent < |items| && !s.failed && !Full(s)
    ensures Reachable(items, s') && s' == s.(sent := s.sent + 1, queue := s.queue + [items[s.sent]])
  {
    s' := Advance(items, s, Check);
    s' := Advance(items, s', Put);
  }

  /** With the producer ahead by `k` items and the writer holding on to the one it took. */
  lemma {:induction false} PutUpTo(items: seq<Item>, s: State, k: nat) returns (s': State)
    requires Reachable(items, s) && s.producer == Checking && !s.failed && !s.ending
    requires s.sent <= k <= |items| && |s.queue| + (k - s.sent) <= CAPACITY
    ensures Reachable(items, s') && s' == s.(sent := k, queue := s'.queue) && |s'.queue| == |s.queue| + (k - s.sent)
    decreases k - s.sent
  {
    if s.sent == k {
      s' := s;
    } else {
      s' := PutOne(items, s);
      s' := PutUpTo(items, s', k);
    }
  }

  /** Items are put and written one at a time. */
  lemma {:induction false} WriteUpTo(items: seq<Item>, k: nat) returns (s: State)
    requires k <= |items|
    ensures Reachable(items, s) && Clean(items, s, k) && Stored(s.log) == NodesIn(items[..k])
  {
    if k == 0 {
      s := Init();
      StartReachable(items);
      assert items[..0] == [];
    } else {
      s := WriteUpTo(items, k - 1);
      s := PutOne(items, s);
      s := Advance(items, s, Get);
      s := FinishItem(items, s);
      assert items[..k][..k - 1] == items[..k - 1];
    }
  }

  lemma FinishItem(items: seq<Item>, s: State) returns (s': State)
    requires Reachable(items, s) && s.writer.AtNodes?
    ensures Reachable(items, s') && s' == s.(writer := Idle, log := s'.log)
    ensures Stored(s'.log) == Stored(s.log) + s.writer.item.nodes
  {
    var item := s.writer.item;
    s' := Advance(items, s, Write);
    s' := Advance(items, s', Write);
    StoredItem(item);
    StoredConcat(s.log, NodeOps(item));
    StoredConcat(s.log + NodeOps(item), EdgeOps(item));
  }

  /** The item in hand goes by without its nodes being stored. */
  lemma LoseItem(items: seq<Item>, s: State) returns (s': State)
    requires Reachable(items, s) && s.writer.AtNodes?
    ensures Reachable(items, s') && s' == s.(writer := Idle, failed := s'.failed, log := s'.log)
    ensures Stored(s'.log) == Stored(s.log)
  {
    if s.writer.item.nodes == [] {
      s' := FinishItem(items, s);
    } else {
      s' := Advance(items, s, Fail);
    }
  }

  /** All queued items before `i` go by without their nodes being stored. */
  lemma {:induction false} LoseUpTo(items: seq<Item>, s: State, i: nat) returns (s': State)
    requires Reachable(items, s) && s.writer == Idle && s.taken <= i < s.sent
    ensures Reachable(items, s') && s'.writer == Idle && s'.taken == i && s'.sent == s.sent
      && Stored(s'.log) == Stored(s.log)
    decreases i - s.taken
  {
    if s.taken == i {
      s' := s;
    } else {
      InvReachable(items, s);
      s' := Advance(items, s, Get);
      s' := LoseItem(items, s');
      s' := LoseUpTo(items, s', i);
    }
  }

  /** From a clean start at `w`, items `w..i` are all enqueued before the first of them is over, and all but the last
      are lost. */
  lemma AllEnqueued(items: seq<Item>, w: nat, i: nat) returns (s: State)
    requires w < i < |items| && i <= w + REACH
    ensures Reachable(items, s) && s.writer == Idle && s.sent == i + 1 && s.taken <= i
      && Stored(s.log) == NodesIn(items[..w])
  {
    s := WriteUpTo(items, w);
    s := PutOne(items, s);
    s := Advance(items, s, Get);
    if i <= w + CAPACITY {
      s := PutUpTo(items, s, i + 1);
      s := LoseItem(items, s);
    } else {
      s := PutUpTo(items, s, i);
      s := BlockedPut(items, s, i);
    }
  }

  /** The producer has passed its check and waits for a place while the item in hand fails. */
  lemma BlockedPut(items: seq<Item>, s: State, i: nat) returns (s': State)
    requires Reachable(items, s) && s.writer.AtNodes? && s.producer == Checking && !s.failed && !s.ending
    requires s.sent == i < |items| && |s.queue| == CAPACITY
    ensures Reachable(items, s') && s'.writer == Idle && s'.sent == i + 1 && s'.taken <= i
      && Stored(s'.log) == Stored(s.log)
  {
    InvReachable(items, s);
    s' := Advance(items, s, Check);
    s' := LoseItem(items, s');
    s' := Advance(items, s', Get);
    s' := Advance(items, s', Put);
    s' := LoseItem(items, s');
  }

  /** A run that comes to the edges of item `i` with only the nodes of items more than `REACH` earlier, and its own,
      stored. */
  lemma WorstRun(items: seq<Item>, i: nat) returns (s: State, w: nat)
    requires i < |items|
    ensures w == if i < REACH then 0 else i - REACH
    ensures Reachable(items, s) && s.writer == AtEdges(items[i]) && s.taken == i + 1
    ensures Stored(s.log) == NodesIn(items[..w]) + items[i].nodes
  {
    w := if i < REACH then 0 else i - REACH;
    if w == i {
      s := WriteUpTo(items, i);
      s := PutOne(items, s);
    } else {
      s := AllEnqueued(items, w, i);
      s := LoseUpTo(items, s, i);
    }
    InvReachable(items, s);
    s := Advance(items, s, Get);
    var log := s.log;
    s := Advance(items, s, Write);
    StoredItem(items[i]);
    StoredConcat(log, NodeOps(items[i]));
  }

  lemma {:induction false} NodesFrom(items: seq<Item>, v: string) returns (k: nat)
    requires v in IdsOf(NodesIn(items))
    ensures k < |items| && v in IdsOf(items[k].nodes)
    decreases |items|
  {
    var rest, last := items[..|items| - 1], items[|items| - 1];
    IdsConcat(NodesIn(rest), last.nodes);
    if v in IdsOf(last.nodes) { k := |items| - 1; } else { k := NodesFrom(rest, v); }
  }

  lemma StoredNamesAreSafe(items: seq<Item>, ids: set<string>, i: nat, v: string)
    requires i < |items|
    requires var w := if i < REACH then 0 else i - REACH; v in ids + IdsOf(NodesIn(items[..w]) + items[i].nodes)
    ensures SafelyNamed(items, ids, i, v)
  {
    var w := if i < REACH then 0 else i - REACH;
    IdsConcat(NodesIn(items[..w]), items[i].nodes);
    if v in IdsOf(NodesIn(items[..w])) {
      var k := NodesFrom(items[..w], v);
      assert items[..w][k] == items[k] && k + REACH < i;
    }
  }

  /**
    * Endpoints are stored before their edges on every run, with a write failing anywhere, exactly when every edge names
    * only nodes known before the stage, handed over with it, or handed over more than `REACH` items earlier.
    */
  lemma EndpointsSurviveFailureIff(items: seq<Item>, ids: set<string>)
    ensures KeepsEndpoints(items, ids) <==> NamesSafely(items, ids)
  {
    if NamesSafely(items, ids) {
      forall s | Reachable(items, s) && s.writer.AtEdges? ensures EdgesOnStored(s.writer.item, ids, s.log) {
        InvReachable(items, s);
        forall e | e in s.writer.item.edges ensures e.src in ids + IdsOf(Stored(s.log))
          && e.dst in ids + IdsOf(Stored(s.log)) {
          assert e in items[s.taken - 1].edges;
          SafeNamesAreStored(items, ids, s, e.src);
          SafeNamesAreStored(items, ids, s, e.dst);
        }
      }
    }
    if KeepsEndpoints(items, ids) {
      forall i, e | 0 <= i < |items| && e in items[i].edges
        ensures SafelyNamed(items, ids, i, e.src) && SafelyNamed(items, ids, i, e.dst)
      {
        var s, w := WorstRun(items, i);
        assert EdgesOnStored(s.writer.item, ids, s.log);
        StoredNamesAreSafe(items, ids, i, e.src);
        StoredNamesAreSafe(items, ids, i, e.dst);
      }
    }
  }

  /** So the sink's order alone is not enough: an edge one item behind its endpoint can outlive it. */
  lemma FailureLosesEndpoints(n: Node, e: Edge) returns (items: seq<Item>)
    requires e.src == e.dst == n.id
    ensures EndpointsFirst(items, {}) && !KeepsEndpoints(items, {})
  {
    items := [Item([n], []), Item([], [e])];
    assert items[..2] == items && items[..2][..1] == [items[0]] && [items[0]][..0] == [];
    assert n in NodesIn([items[0]]);
    assert e in items[1].edges && !SafelyNamed(items, {}, 1, e.src);
    EndpointsSurviveFailureIff(items, {});
  }

  // ---- order and at-most-once, on failing runs too -----------------------------------

  /** `a` is `b` with some entries left out. */
  predicate Subsequence(a: seq<Op>, b: seq<Op>)
    decreases b
  {
    a == [] || (b != [] && (Subsequence(a, b[..|b| - 1])
      || (a[|a| - 1] == b[|b| - 1] && Subsequence(a[..|a| - 1], b[..|b| - 1]))))
  }

  lemma {:induction false} SubsequenceTogether(a: seq<Op>, b: seq<Op>, x: seq<Op>)
    requires Subsequence(a, b)
    ensures Subsequence(a + x, b + x)
  {
    if x == [] {
      assert a + x == a && b + x == b;
    } else {
      SubsequenceTogether(a, b, x[..|x| - 1]);
      assert (a + x)[..|a + x| - 1] == a + x[..|x| - 1] && (b + x)[..|b + x| - 1] == b + x[..|x| - 1];
    }
  }

  lemma {:induction false} SubsequenceDrop(a: seq<Op>, x: seq<Op>, b: seq<Op>)
    requires Subsequence(a + x, b)
    ensures Subsequence(a, b)
    decreases b
  {
    if a != [] {
      var b' := b[..|b| - 1];
      if Subsequence(a + x, b') {
        SubsequenceDrop(a, x, b');
      } else if x == [] {
        assert a + x == a;
      } else {
        assert (a + x)[..|a + x| - 1] == a + x[..|x| - 1];
        SubsequenceDrop(a, x[..|x| - 1], b');
      }
    }
  }

  ghost predicate Ordered(items: seq<Item>, s: State) {
    s.taken <= |items| && Subsequence(s.log + InHand(s.writer), AllOps(items[..s.taken]))
  }

  lemma OrderedGet(items: seq<Item>, s: State)
    requires Enabled(items, s, Get) && QueueFits(items, s) && Ordered(items, s) && s.queue != []
    ensures Ordered(items, Apply(items, s, Get))
  {
    var item := items[s.taken];
    OpsNext(items, s.taken);
    assert s.log + InHand(s.writer) == s.log;
    SubsequenceTogether(s.log, AllOps(items[..s.taken]), NodeOps(item) + EdgeOps(item));
  }

  lemma OrderedFail(items: seq<Item>, s: State)
    requires Enabled(items, s, Fail) && Ordered(items, s)
    ensures Ordered(items, Apply(items, s, Fail))
  {
    SubsequenceDrop(s.log, InHand(s.writer), AllOps(items[..s.taken]));
    assert s.log + [] == s.log;
  }

  lemma OrderedNext(items: seq<Item>, s: State, m: Move)
    requires Enabled(items, s, m) && QueueFits(items, s) && Ordered(items, s)
    ensures Ordered(items, Apply(items, s, m))
  {
    if m == Get && s.queue != [] {
      OrderedGet(items, s);
    } else if m == Fail {
      OrderedFail(items, s);
    } else {
      var s' := Apply(items, s, m);
      assert s'.log + InHand(s'.writer) == s.log + InHand(s.writer);
    }
  }

  lemma OrderedInit(items: seq<Item>)
    ensures Inv(items, Init()) && Ordered(items, Init())
  {
    assert items[..0] == [];
  }

  lemma OrderedStep(items: seq<Item>, s: State, m: Move)
    requires Inv(items, s) && Ordered(items, s) && Enabled(items, s, m)
    ensures Inv(items, Apply(items, s, m)) && Ordered(items, Apply(items, s, m))
  {
    InvNext(items, s, m);
    OrderedNext(items, s, m);
  }

  lemma {:induction false} OrderedAfter(items: seq<Item>, moves: seq<Move>)
    ensures After(items, moves).Some? ==>
      Inv(items, After(items, moves).value) && Ordered(items, After(items, moves).value)
  {
    if moves == [] {
      OrderedInit(items);
    } else {
      var rest, m := moves[..|moves| - 1], moves[|moves| - 1];
      OrderedAfter(items, rest);
      if After(items, rest).Some? && Enabled(items, After(items, rest).value, m) {
        OrderedStep(items, After(items, rest).value, m);
      }
    }
  }

  /** On every run, failing or not, the store sees each item at most once and never out of order. */
  lemma LogKeepsOrder(items: seq<Item>, s: State)
    requires Reachable(items, s)
    ensures Ordered(items, s)
  {
    var moves :| After(items, moves) == Some(s);
    OrderedAfter(items, moves);
  }
}
