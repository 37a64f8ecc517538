/** The prefetching reference stream: a loader thread, a one-slot queue and a consumer that may walk away. */
module RefStream {
  import opened GraphModel

  /** What loading a batch file comes to: its references, a failure the loader reports as nothing,
      or an error it does not catch, which ends its thread. */
  datatype Load = Batch(refs: seq<RawRef>) | Missing | Dies

  function RefsOf(l: Load): seq<RawRef> { if l.Batch? then l.refs else [] }

  function AllRefs(loads: seq<Load>): seq<RawRef> {
    if loads == [] then [] else AllRefs(loads[..|loads| - 1]) + RefsOf(loads[|loads| - 1])
  }

  /** About to load batch `at`; blocked in the put of batch `at`, or of the end mark; over; or killed by an error. */
  datatype Loader = Loading(at: nat) | Holding(at: nat) | HoldingEnd | Stopped | Dead

  datatype Slot = Empty | Data(at: nat) | End

  /** Blocked in get; handing out batch `at`, `pos` references done; past the end mark; or closed early. */
  datatype Consumer = Waiting | Yielding(at: nat, pos: nat) | Finished | Abandoned

  /** `taken` batches have left the queue; `current` is the batch the consumer last received, until
      the next takes its place or the iteration is over. */
  datatype State = State(
    loader: Loader, slot: Slot, consumer: Consumer, current: Option<nat>, stop: bool, taken: nat, out: seq<RawRef>)

  function Init(): State { State(Loading(0), Empty, Waiting, None, false, 0, []) }

  datatype Move =
    | LoadNext | LoadStop | LoadsDone | PutBatch | PutEnd | GiveUp   // loader
    | Get | Yield | BatchDone | Abandon                                // consumer

  predicate Enabled(loads: seq<Load>, s: State, m: Move) {
    match m
    case LoadNext => s.loader.Loading? && s.loader.at < |loads| && !s.stop
    case LoadStop => s.loader.Loading? && s.loader.at < |loads| && s.stop
    case LoadsDone => s.loader == Loading(|loads|)
    case PutBatch => s.loader.Holding? && s.slot == Empty
    case PutEnd => s.loader == HoldingEnd && s.slot == Empty
    case GiveUp => (s.loader.Holding? || s.loader == HoldingEnd) && s.stop
    case Get => s.consumer == Waiting && s.slot != Empty && (s.slot.Data? ==> s.slot.at < |loads|)
    case Yield => s.consumer.Yielding? && s.consumer.at < |loads| && s.consumer.pos < |RefsOf(loads[s.consumer.at])|
    case BatchDone => s.consumer.Yielding? && s.consumer.at < |loads|
      && s.consumer.pos == |RefsOf(loads[s.consumer.at])|
    case Abandon => s.consumer.Yielding? && 0 < s.consumer.pos
  }

  function Apply(loads: seq<Load>, s: State, m: Move): State
    requires Enabled(loads, s, m)
  {
    match m
    case LoadNext => s.(loader := if loads[s.loader.at] == Dies then Dead else Holding(s.loader.at))
    case LoadStop => s.(loader := Stopped)
    case LoadsDone => s.(loader := HoldingEnd)
    case PutBatch => s.(loader := Loading(s.loader.at + 1), slot := Data(s.loader.at))
    case PutEnd => s.(loader := Stopped, slot := End)
    case GiveUp => s.(loader := Stopped)
    case Get =>
      if s.slot == End then s.(slot := Empty, current := None, consumer := Finished, stop := true)
      else s.(slot := Empty, taken := s.taken + 1,
              current := if loads[s.slot.at].Batch? then Some(s.slot.at) else None,
              consumer := if loads[s.slot.at].Batch? then Yielding(s.slot.at, 0) else Waiting)
    case Yield => s.(out := s.out + [RefsOf(loads[s.consumer.at])[s.consumer.pos]],
                     consumer := Yielding(s.consumer.at, s.consumer.pos + 1))
    case BatchDone => s.(consumer := Waiting)
    case Abandon => s.(consumer := Abandoned, current := None, stop := true)
  }

  /** Where an interleaving leads, if every move of it is possible in its turn. */
  function After(loads: seq<Load>, moves: seq<Move>): Option<State> {
    if moves == [] then Some(Init())
    else match After(loads, moves[..|moves| - 1])
      case Some(s) => if Enabled(loads, s, moves[|moves| - 1]) then Some(Apply(loads, s, moves[|moves| - 1])) else None
      case None => None
  }

  /** Some interleaving comes to `s`. */
  ghost predicate Reachable(loads: seq<Load>, s: State) { exists moves :: After(loads, moves) == Some(s) }

  lemma Advance(loads: seq<Load>, s: State, m: Move) returns (s': State)
    requires Reachable(loads, s) && Enabled(loads, s, m)
    ensures s' == Apply(loads, s, m) && Reachable(loads, s')
  {
    s' := Apply(loads, s, m);
    var moves :| After(loads, moves) == Some(s);
    assert (moves + [m])[..|moves|] == moves;
    assert After(loads, moves + [m]) == Some(s');
  }

  /** The loader is one ahead of the slot, and the slot one ahead of the consumer. */
  ghost predicate InStep(loads: seq<Load>, s: State) {
    && s.taken <= |loads|
    && (s.slot.Data? ==> s.slot.at == s.taken < |loads|)
    && (s.slot == End ==> s.taken == |loads| && s.loader == Stopped)
    && (s.loader.Loading? ==> s.loader.at == s.taken + (if s.slot.Data? then 1 else 0) <= |loads|)
    && (s.loader.Holding? ==> s.loader.at == s.taken + (if s.slot.Data? then 1 else 0) < |loads|)
    && (s.loader == HoldingEnd ==> s.taken + (if s.slot.Data? then 1 else 0) == |loads|)
    && (s.loader == Stopped ==> s.stop || s.slot == End)
    && (s.stop <==> s.consumer == Finished || s.consumer == Abandoned)
    && (s.consumer == Finished ==> s.taken == |loads| && s.loader == Stopped)
  }

  /** What came out is a prefix of the batches' references, cut where the consumer stands. */
  ghost predicate OutFits(loads: seq<Load>, s: State) {
    && s.taken <= |loads|
    && match s.consumer
       case Waiting => s.out == AllRefs(loads[..s.taken])
       case Yielding(at, pos) => at + 1 == s.taken && pos <= |RefsOf(loads[at])|
         && s.out == AllRefs(loads[..at]) + RefsOf(loads[at])[..pos]
       case Finished => s.out == AllRefs(loads[..s.taken])
       case Abandoned => s.out <= AllRefs(loads[..s.taken])
  }

  /** Every batch the loader went past loaded without killing it. */
  ghost predicate Survived(loads: seq<Load>, s: State) {
    && s.taken + (if s.slot.Data? then 1 else 0) <= |loads|
    && (forall i :: 0 <= i < s.taken + (if s.slot.Data? then 1 else 0) ==> loads[i] != Dies)
    && (s.loader.Holding? ==> s.loader.at < |loads| && loads[s.loader.at] != Dies)
    && (s.loader == Dead ==> exists i :: 0 <= i < |loads| && loads[i] == Dies)
  }

  lemma InStepNext(loads: seq<Load>, s: State, m: Move)
    requires Enabled(loads, s, m) && InStep(loads, s)
    ensures InStep(loads, Apply(loads, s, m))
  {
  }

  lemma AllRefsNext(loads: seq<Load>, k: nat)
    requires k < |loads|
    ensures AllRefs(loads[..k + 1]) == AllRefs(loads[..k]) + RefsOf(loads[k])
  {
    assert loads[..k + 1][..k] == loads[..k];
  }

  lemma OutAfterGet(loads: seq<Load>, s: State)
    requires Enabled(loads, s, Get) && InStep(loads, s) && OutFits(loads, s)
    ensures OutFits(loads, Apply(loads, s, Get))
  {
    if s.slot.Data? {
      AllRefsNext(loads, s.taken);
      assert RefsOf(loads[s.taken])[..0] == [];
    }
  }

  lemma YieldedSoFar(refs: seq<RawRef>, pos: nat)
    requires pos <= |refs|
    ensures refs[..pos] <= refs && refs[..|refs|] == refs
    ensures pos < |refs| ==> refs[..pos + 1] == refs[..pos] + [refs[pos]]
  {
  }

  lemma OutWhileYielding(loads: seq<Load>, s: State, m: Move)
    requires Enabled(loads, s, m) && InStep(loads, s) && OutFits(loads, s) && m in {Yield, BatchDone, Abandon}
    ensures OutFits(loads, Apply(loads, s, m))
  {
    var at, pos := s.consumer.at, s.consumer.pos;
    AllRefsNext(loads, at);
    YieldedSoFar(RefsOf(loads[at]), pos);
  }

  lemma OutNext(loads: seq<Load>, s: State, m: Move)
    requires Enabled(loads, s, m) && InStep(loads, s) && OutFits(loads, s)
    ensures OutFits(loads, Apply(loads, s, m))
  {
    match m {
      case Get => OutAfterGet(loads, s);
      case Yield => OutWhileYielding(loads, s, m);
      case BatchDone => OutWhileYielding(loads, s, m);
      case Abandon => OutWhileYielding(loads, s, m);
      case _ =>
    }
  }

  lemma SurvivedNext(loads: seq<Load>, s: State, m: Move)
    requires Enabled(loads, s, m) && InStep(loads, s) && Survived(loads, s)
    ensures Survived(loads, Apply(loads, s, m))
  {
  }

  /** The consumer's batch is the last one taken. */
  ghost predicate CurrentIsLast(s: State) { s.current.Some? ==> s.current.value + 1 == s.taken }

  lemma CurrentNext(loads: seq<Load>, s: State, m: Move)
    requires Enabled(loads, s, m) && InStep(loads, s) && CurrentIsLast(s)
    ensures CurrentIsLast(Apply(loads, s, m))
  {
  }

  ghost predicate Inv(loads: seq<Load>, s: State) {
    InStep(loads, s) && OutFits(loads, s) && Survived(loads, s) && CurrentIsLast(s)
  }

  lemma InvNext(loads: seq<Load>, s: State, m: Move)
    requires Inv(loads, s) && Enabled(loads, s, m)
    ensures Inv(loads, Apply(loads, s, m))
  {
    InStepNext(loads, s, m);
    OutNext(loads, s, m);
    SurvivedNext(loads, s, m);
    CurrentNext(loads, s, m);
  }

  lemma InvInit(loads: seq<Load>)
    ensures Inv(loads, Init())
  {
    assert loads[..0] == [];
  }

  lemma {:induction false} InvAfter(loads: seq<Load>, moves: seq<Move>)
    ensures After(loads, moves).Some? ==> Inv(loads, After(loads, moves).value)
  {
    if moves == [] {
      InvInit(loads);
    } else {
      var before := After(loads, moves[..|moves| - 1]);
      InvAfter(loads, moves[..|moves| - 1]);
      if before.Some? && Enabled(loads, before.value, moves[|moves| - 1]) {
        InvNext(loads, before.value, moves[|moves| - 1]);
      }
    }
  }

  lemma InvHolds(loads: seq<Load>, s: State)
    requires Reachable(loads, s)
    ensures Inv(loads, s)
  {
    var moves :| After(loads, moves) == Some(s);
    InvAfter(loads, moves);
  }

  lemma StartReachable(loads: seq<Load>)
    ensures Reachable(loads, Init())
  {
    assert After(loads, []) == Some(Init());
  }

  lemma {:induction false} AllRefsPrefix(loads: seq<Load>, k: nat)
    requires k <= |loads|
    ensures AllRefs(loads[..k]) <= AllRefs(loads)
    decreases |loads| - k
  {
    if k == |loads| {
      assert loads[..k] == loads;
    } else {
      AllRefsPrefix(loads, k + 1);
      AllRefsNext(loads, k);
    }
  }

  /** In every interleaving the references come out in batch order, and all of them when the end mark is reached. */
  lemma StreamsInOrder(loads: seq<Load>, s: State)
    requires Reachable(loads, s)
    ensures s.out <= AllRefs(loads)
    ensures s.consumer == Finished ==> s.out == AllRefs(loads)
  {
    InvHolds(loads, s);
    AllRefsPrefix(loads, s.taken);
    assert s.out <= AllRefs(loads[..s.taken]) by { OutWithin(loads, s); }
    assert loads[..|loads|] == loads;
  }

  lemma OutWithin(loads: seq<Load>, s: State)
    requires OutFits(loads, s)
    ensures s.out <= AllRefs(loads[..s.taken])
  {
    if s.consumer.Yielding? {
      AllRefsNext(loads, s.consumer.at);
    }
  }

  // ---- how many batches are held ------------------------------------------------

  function IfBatch(loads: seq<Load>, i: nat): set<nat> {
    if i < |loads| && loads[i].Batch? then {i} else {}
  }

  /** The batches in memory: the loader's, the queue's and the consumer's. A load that came to nothing is none. */
  function Resident(loads: seq<Load>, s: State): set<nat> {
    (if s.loader.Holding? then IfBatch(loads, s.loader.at) else {})
    + (if s.slot.Data? then IfBatch(loads, s.slot.at) else {})
    + (if s.current.Some? then IfBatch(loads, s.current.value) else {})
  }

  /** On every run the batches in memory are among three neighbours: the last one taken and the two after it. */
  lemma AtMostThreeHeld(loads: seq<Load>, s: State)
    requires Reachable(loads, s)
    ensures forall i :: i in Resident(loads, s) ==> s.taken - 1 <= i <= s.taken + 1 && i < |loads| && loads[i].Batch?
    ensures |Resident(loads, s)| <= 3
  {
    InvHolds(loads, s);
    ResidentIsNear(loads, s);
    FewerElements(Resident(loads, s), {s.taken - 1, s.taken, s.taken + 1});
  }

  lemma ResidentIsNear(loads: seq<Load>, s: State)
    requires InStep(loads, s) && CurrentIsLast(s)
    ensures forall i :: i in Resident(loads, s) ==> s.taken - 1 <= i <= s.taken + 1 && i < |loads| && loads[i].Batch?
  {
  }

  lemma {:induction false} FewerElements(a: set<nat>, b: set<int>)
    requires forall x :: x in a ==> x in b
    ensures |a| <= |b|
  {
    if a != {} {
      var x :| x in a;
      FewerElements(a - {x}, b - {x as int});
    }
  }

  /** Three batches follow one another with nothing before them that kills the loader. */
  ghost predicate ThreeInARow(loads: seq<Load>) {
    exists i :: TripleAt(loads, i)
  }

  ghost predicate TripleAt(loads: seq<Load>, i: int) {
    && 0 <= i && i + 2 < |loads| && loads[i].Batch? && loads[i + 1].Batch? && loads[i + 2].Batch?
    && forall k :: 0 <= k < i ==> loads[k] != Dies
  }

  ghost predicate CanHoldThree(loads: seq<Load>) {
    exists s :: Reachable(loads, s) && |Resident(loads, s)| == 3
  }

  /** Loader and consumer in lockstep: batch `i` is next for both. */
  function Between(i: nat, out: seq<RawRef>, current: Option<nat>): State {
    State(Loading(i), Empty, Waiting, current, false, i, out)
  }

  /** The consumer hands out the rest of its batch. */
  lemma {:induction false} YieldRest(loads: seq<Load>, s: State) returns (s': State)
    requires Reachable(loads, s) && s.consumer.Yielding? && s.consumer.at < |loads|
    requires s.consumer.pos <= |RefsOf(loads[s.consumer.at])|
    ensures Reachable(loads, s') && s' == s.(consumer := Waiting, out := s'.out)
    decreases |RefsOf(loads[s.consumer.at])| - s.consumer.pos
  {
    if s.consumer.pos == |RefsOf(loads[s.consumer.at])| {
      s' := Advance(loads, s, BatchDone);
    } else {
      s' := Advance(loads, s, Yield);
      s' := YieldRest(loads, s');
    }
  }

  /** Without a deadly load on the way, batch `i` can be next for both sides. */
  lemma {:induction false} ComeTo(loads: seq<Load>, i: nat) returns (s: State)
    requires i <= |loads| && forall k :: 0 <= k < i ==> loads[k] != Dies
    ensures Reachable(loads, s) && s == Between(i, s.out, s.current)
  {
    if i == 0 {
      s := Init();
      StartReachable(loads);
    } else {
      s := ComeTo(loads, i - 1);
      s := PassOn(loads, s);
      if loads[i - 1].Batch? {
        s := YieldRest(loads, s);
      }
    }
  }

  /** Load, put, get: the consumer has the batch and the loader turns to the next. */
  lemma PassOn(loads: seq<Load>, s: State) returns (s': State)
    requires Reachable(loads, s) && s.loader.Loading? && s == Between(s.taken, s.out, s.current)
    requires s.taken < |loads| && loads[s.taken] != Dies
    ensures Reachable(loads, s')
    ensures s' == Between(s.taken + 1, s.out, if loads[s.taken].Batch? then Some(s.taken) else None)
                    .(consumer := if loads[s.taken].Batch? then Yielding(s.taken, 0) else Waiting)
  {
    s' := LoadOne(loads, s);
    s' := Advance(loads, s', Get);
  }

  /** The loader fetches a batch and puts it. */
  lemma LoadOne(loads: seq<Load>, s: State) returns (s': State)
    requires Reachable(loads, s) && s.loader.Loading? && !s.stop && s.slot == Empty
    requires s.loader.at < |loads| && loads[s.loader.at] != Dies
    ensures Reachable(loads, s') && s' == s.(loader := Loading(s.loader.at + 1), slot := Data(s.loader.at))
  {
    FetchAndPut(loads, s);
    s' := AdvanceTwice(loads, s, LoadNext, PutBatch);
  }

  lemma FetchAndPut(loads: seq<Load>, s: State)
    requires s.loader.Loading? && !s.stop && s.slot == Empty && s.loader.at < |loads| && loads[s.loader.at] != Dies
    ensures Enabled(loads, s, LoadNext) && Enabled(loads, Apply(loads, s, LoadNext), PutBatch)
    ensures Apply(loads, Apply(loads, s, LoadNext), PutBatch)
         == s.(loader := Loading(s.loader.at + 1), slot := Data(s.loader.at))
  {
  }

  lemma AdvanceTwice(loads: seq<Load>, s: State, a: Move, b: Move) returns (s': State)
    requires Reachable(loads, s) && Enabled(loads, s, a) && Enabled(loads, Apply(loads, s, a), b)
    ensures s' == Apply(loads, Apply(loads, s, a), b) && Reachable(loads, s')
  {
    s' := Advance(loads, s, a);
    s' := Advance(loads, s', b);
  }

  lemma TripleIsHeld(loads: seq<Load>, i: nat) returns (s: State)
    requires TripleAt(loads, i)
    ensures Reachable(loads, s) && Resident(loads, s) == {i, i + 1, i + 2}
  {
    s := ComeTo(loads, i);
    s := PassOn(loads, s);
    s := LoadOne(loads, s);
    s := Advance(loads, s, LoadNext);
    assert s.loader == Holding(i + 2) && s.slot == Data(i + 1) && s.current == Some(i);
  }

  lemma HeldIsTriple(loads: seq<Load>, s: State)
    requires Reachable(loads, s) && |Resident(loads, s)| == 3
    ensures TripleAt(loads, s.taken - 1)
  {
    InvHolds(loads, s);
    var a := if s.loader.Holding? then IfBatch(loads, s.loader.at) else {};
    var b := if s.slot.Data? then IfBatch(loads, s.slot.at) else {};
    var c := if s.current.Some? then IfBatch(loads, s.current.value) else {};
    ThreeSingletons(a, b, c);
  }

  lemma ThreeSingletons(a: set<nat>, b: set<nat>, c: set<nat>)
    requires |a| <= 1 && |b| <= 1 && |c| <= 1 && |a + b + c| == 3
    ensures a != {} && b != {} && c != {}
  {
    assert a == {} ==> a + b + c == b + c;
    assert b == {} ==> a + b + c == a + c;
    assert c == {} ==> a + b + c == a + b;
  }

  /** The bound of two resident batches is broken exactly when three batches in a row can be loaded. */
  lemma ThreeAreHeldIff(loads: seq<Load>)
    ensures CanHoldThree(loads) <==> ThreeInARow(loads)
  {
    if CanHoldThree(loads) {
      var s :| Reachable(loads, s) && |Resident(loads, s)| == 3;
      HeldIsTriple(loads, s);
    }
    if ThreeInARow(loads) {
      var i :| TripleAt(loads, i);
      var s := TripleIsHeld(loads, i);
      assert |{i, i + 1, i + 2}| == 3;
    }
  }

  // ---- progress ---------------------------------------------------------------------

  predicate LoaderOver(s: State) { s.loader == Stopped || s.loader == Dead }

  predicate ConsumerOver(s: State) { s.consumer == Finished || s.consumer == Abandoned }

  /** The consumer waits for a batch or an end mark that nobody will put. */
  predicate Stuck(s: State) { s.consumer == Waiting && s.slot == Empty && s.loader == Dead }

  /** Unless it is stuck, a stream with a side still running can go on without being abandoned;
      once the iteration is over it is the loader that can. */
  lemma NoOtherDeadlock(loads: seq<Load>, s: State) returns (m: Move)
    requires Reachable(loads, s) && !Stuck(s) && !(LoaderOver(s) && ConsumerOver(s))
    ensures Enabled(loads, s, m) && m != Abandon
    ensures s.stop ==> m in {LoadStop, LoadsDone, GiveUp}
  {
    InvHolds(loads, s);
    if s.consumer.Yielding? {
      m := if s.consumer.pos < |RefsOf(loads[s.consumer.at])| then Yield else BatchDone;
    } else if s.consumer == Waiting && s.slot != Empty {
      m := Get;
    } else {
      m := match s.loader
        case Loading(at) => if at == |loads| then LoadsDone else if s.stop then LoadStop else LoadNext
        case Holding(_) => if s.stop then GiveUp else PutBatch
        case _ => if s.stop then GiveUp else PutEnd;
    }
  }

  function Work(loads: seq<Load>, from: nat): nat
    decreases |loads| - from
  {
    if from >= |loads| then 0 else |RefsOf(loads[from])| + 5 + Work(loads, from + 1)
  }

  /** An upper bound on the steps still to come. */
  function Rank(loads: seq<Load>, s: State): int {
    (match s.loader case Loading(at) => Work(loads, at) + 4 case Holding(at) => Work(loads, at) + 3
       case HoldingEnd => 3 case _ => 0)
    + (match s.slot case Empty => 0 case Data(at) => if at < |loads| then |RefsOf(loads[at])| + 2 else 0 case End => 1)
    + (match s.consumer case Yielding(at, pos) => if at < |loads| then |RefsOf(loads[at])| - pos + 1 else 0 case _ => 0)
  }

  lemma WorkNext(loads: seq<Load>, from: nat)
    requires from < |loads|
    ensures Work(loads, from) == |RefsOf(loads[from])| + 5 + Work(loads, from + 1)
  {
  }

  predicate LoaderMoves(m: Move) {
    m == LoadNext || m == LoadStop || m == LoadsDone || m == PutBatch || m == PutEnd || m == GiveUp
  }

  lemma LoaderAdvances(loads: seq<Load>, s: State, m: Move)
    requires Inv(loads, s) && Enabled(loads, s, m) && LoaderMoves(m)
    ensures 0 <= Rank(loads, Apply(loads, s, m)) < Rank(loads, s)
  {
    if s.loader.Loading? && s.loader.at < |loads| { WorkNext(loads, s.loader.at); }
    if s.loader.Holding? { WorkNext(loads, s.loader.at); }
  }

  lemma ConsumerAdvances(loads: seq<Load>, s: State, m: Move)
    requires Inv(loads, s) && Enabled(loads, s, m) && !LoaderMoves(m)
    ensures 0 <= Rank(loads, Apply(loads, s, m)) < Rank(loads, s)
  {
  }

  /** Every step brings the end nearer, so every run stops, the loader of an abandoned one too. */
  lemma EveryStepAdvances(loads: seq<Load>, s: State, m: Move)
    requires Reachable(loads, s) && Enabled(loads, s, m)
    ensures 0 <= Rank(loads, Apply(loads, s, m)) < Rank(loads, s)
  {
    InvHolds(loads, s);
    if LoaderMoves(m) { LoaderAdvances(loads, s, m); } else { ConsumerAdvances(loads, s, m); }
  }

  /** Going on without abandoning, a run gets stuck or ends. */
  lemma {:induction false} GoOn(loads: seq<Load>, s: State) returns (t: State)
    requires Reachable(loads, s) && s.consumer != Abandoned
    ensures Reachable(loads, t) && (Stuck(t) || t.consumer == Finished)
    decreases Rank(loads, s) + 1
  {
    if Stuck(s) || s.consumer == Finished {
      t := s;
    } else {
      var m := NoOtherDeadlock(loads, s);
      EveryStepAdvances(loads, s, m);
      var s' := Advance(loads, s, m);
      t := GoOn(loads, s');
    }
  }

  ghost predicate SomeLoadDies(loads: seq<Load>) { exists i :: 0 <= i < |loads| && loads[i] == Dies }

  ghost predicate CanGetStuck(loads: seq<Load>) { exists s :: Reachable(loads, s) && Stuck(s) }

  /** A consumer can be left waiting for ever exactly when some batch file fails in a way the loader does not catch. */
  lemma StuckIffALoadDies(loads: seq<Load>)
    ensures CanGetStuck(loads) <==> SomeLoadDies(loads)
  {
    if CanGetStuck(loads) {
      var s :| Reachable(loads, s) && Stuck(s);
      InvHolds(loads, s);
    }
    if SomeLoadDies(loads) {
      StartReachable(loads);
      var s := GoOn(loads, Init());
      InvHolds(loads, s);
    }
  }
}
