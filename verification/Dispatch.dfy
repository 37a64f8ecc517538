/** What narrowing a call promises about the candidates it returns. */
module Dispatch {
  import opened GraphModel
  import opened LookupIndices
  import opened Ancestors
  import opened Inheritance
  import opened Narrowing

  lemma {:induction false} OwnMembersOf(methods: Slots, classes: seq<Node>, name: string)
    ensures forall n :: n in OwnMembers(methods, classes, name) <==>
      exists c :: c in classes && n in DeclaredBy(methods, c.id, name)
  {
    if classes != [] {
      var rest, last := classes[..|classes| - 1], classes[|classes| - 1];
      OwnMembersOf(methods, rest, name);
      assert classes == rest + [last];
    }
  }

  lemma {:induction false} InheritedOf(g: Hierarchy, methods: Slots, ids: seq<string>, name: string)
    ensures forall n :: n in Inherited(g, methods, ids, name) <==>
      exists c :: c in ids && n in InheritedBy(g, methods, c, name)
  {
    if ids != [] {
      var rest, last := ids[..|ids| - 1], ids[|ids| - 1];
      InheritedOf(g, methods, rest, name);
      assert ids == rest + [last];
    }
  }

  /** A call on `cls` reaches `n`: declared by the class itself, or by a nearest ancestor when it declares none. */
  ghost predicate DispatchesTo(sy: Symbols, cls: string, name: string, n: Node) {
    var methods := sy.ix.methodsOfClass;
    || n in DeclaredBy(methods, cls, name)
    || (DeclaredBy(methods, cls, name) == []
        && exists anc :: NearestDeclaring(sy.supers, methods, cls, name, anc) && n in DeclaredBy(methods, anc, name))
  }

  /** Some class among `classes` dispatches to `n`. */
  ghost predicate Dispatched(sy: Symbols, classes: seq<string>, name: string, n: Node) {
    exists c :: c in classes && DispatchesTo(sy, c, name, n)
  }

  /** The classes a call's receiver can stand for: by declared type, by self, or by being a class name. */
  ghost function ReceiverClasses(sy: Symbols, ref: RawRef): seq<string> {
    Ids(HintedClasses(sy, ref)) + (if SelfClass(sy, ref).Some? then [SelfClass(sy, ref).value] else [])
      + Ids(NamedClasses(sy, ref))
  }

  lemma OwnHitsDispatch(sy: Symbols, classes: seq<Node>, name: string)
    ensures forall n :: n in OwnMembers(sy.ix.methodsOfClass, classes, name) ==> Dispatched(sy, Ids(classes), name, n)
  {
    OwnMembersOf(sy.ix.methodsOfClass, classes, name);
    forall n | n in OwnMembers(sy.ix.methodsOfClass, classes, name) ensures Dispatched(sy, Ids(classes), name, n) {
      var i :| 0 <= i < |classes| && n in DeclaredBy(sy.ix.methodsOfClass, classes[i].id, name);
      assert Ids(classes)[i] == classes[i].id;
      assert DispatchesTo(sy, classes[i].id, name, n);
    }
  }

  lemma InheritedHitsDispatch(sy: Symbols, ids: seq<string>, name: string)
    requires forall c :: c in ids ==> DeclaredBy(sy.ix.methodsOfClass, c, name) == []
    ensures forall n :: n in Inherited(sy.supers, sy.ix.methodsOfClass, ids, name) ==> Dispatched(sy, ids, name, n)
  {
    InheritedOf(sy.supers, sy.ix.methodsOfClass, ids, name);
    forall n | n in Inherited(sy.supers, sy.ix.methodsOfClass, ids, name) ensures Dispatched(sy, ids, name, n) {
      var c :| c in ids && n in InheritedBy(sy.supers, sy.ix.methodsOfClass, c, name);
      InheritedIsNearest(sy.supers, sy.ix.methodsOfClass, c, name);
    }
  }

  lemma {:induction false} NoneDeclares(methods: Slots, classes: seq<Node>, name: string)
    requires OwnMembers(methods, classes, name) == []
    ensures forall c :: c in Ids(classes) ==> DeclaredBy(methods, c, name) == []
  {
    if classes != [] {
      var last := |classes| - 1;
      NoneDeclares(methods, classes[..last], name);
      assert Ids(classes) == Ids(classes[..last]) + [classes[last].id];
    }
  }

  lemma DispatchedAmong(sy: Symbols, some: seq<string>, all: seq<string>, name: string, hits: seq<Node>)
    requires forall c :: c in some ==> c in all
    requires forall n :: n in hits ==> Dispatched(sy, some, name, n)
    ensures forall n :: n in hits ==> Dispatched(sy, all, name, n)
  {
  }

  /** The own-then-inherited pair of tiers for one list of classes. */
  lemma PairDispatches(sy: Symbols, classes: seq<Node>, name: string)
    ensures forall n :: n in OwnMembers(sy.ix.methodsOfClass, classes, name) ==> Dispatched(sy, Ids(classes), name, n)
    ensures OwnMembers(sy.ix.methodsOfClass, classes, name) == [] ==>
      forall n :: n in Inherited(sy.supers, sy.ix.methodsOfClass, Ids(classes), name) ==>
        Dispatched(sy, Ids(classes), name, n)
  {
    OwnHitsDispatch(sy, classes, name);
    if OwnMembers(sy.ix.methodsOfClass, classes, name) == [] {
      NoneDeclares(sy.ix.methodsOfClass, classes, name);
      InheritedHitsDispatch(sy, Ids(classes), name);
    }
  }

  lemma SelfDispatches(sy: Symbols, cid: string, name: string)
    ensures forall n :: n in DeclaredBy(sy.ix.methodsOfClass, cid, name) ==> Dispatched(sy, [cid], name, n)
    ensures DeclaredBy(sy.ix.methodsOfClass, cid, name) == [] ==>
      forall n :: n in Inherited(sy.supers, sy.ix.methodsOfClass, [cid], name) ==> Dispatched(sy, [cid], name, n)
  {
    forall n | n in DeclaredBy(sy.ix.methodsOfClass, cid, name) ensures Dispatched(sy, [cid], name, n) {
      assert DispatchesTo(sy, cid, name, n);
    }
    if DeclaredBy(sy.ix.methodsOfClass, cid, name) == [] {
      InheritedHitsDispatch(sy, [cid], name);
    }
  }

  /** Tier `k` of the receiver tiers, once the tiers before it are empty. */
  lemma TierDispatches(sy: Symbols, ref: RawRef, k: nat)
    requires k < 6 && forall i :: 0 <= i < k ==> ReceiverTiers(sy, ref)[i].0 == []
    ensures forall n :: n in ReceiverTiers(sy, ref)[k].0 ==> Dispatched(sy, ReceiverClasses(sy, ref), ref.targetName, n)
  {
    var name, all, hits := ref.targetName, ReceiverClasses(sy, ref), ReceiverTiers(sy, ref)[k].0;
    if k < 2 {
      PairDispatches(sy, HintedClasses(sy, ref), name);
      assert k == 1 ==> ReceiverTiers(sy, ref)[0].0 == [];
      DispatchedAmong(sy, Ids(HintedClasses(sy, ref)), all, name, hits);
    } else if k < 4 {
      var self := SelfClass(sy, ref);
      if self.Some? {
        SelfDispatches(sy, self.value, name);
        assert k == 3 ==> ReceiverTiers(sy, ref)[2].0 == [];
        DispatchedAmong(sy, [self.value], all, name, hits);
      }
    } else {
      PairDispatches(sy, NamedClasses(sy, ref), name);
      assert k == 5 ==> ReceiverTiers(sy, ref)[4].0 == [];
      DispatchedAmong(sy, Ids(NamedClasses(sy, ref)), all, name, hits);
    }
  }

  /** Every receiver-narrowed candidate is one that a class of the receiver really dispatches to. */
  lemma ReceivedCallDispatches(sy: Symbols, ref: RawRef)
    ensures forall n :: n in ReceivedCall(sy, ref).0 ==> Dispatched(sy, ReceiverClasses(sy, ref), ref.targetName, n)
  {
    ReceivedIsFirstTier(sy, ref);
    TiersDispatch(sy, ref, ReceiverTiers(sy, ref));
  }

  lemma TiersDispatch(sy: Symbols, ref: RawRef, t: seq<Hits>)
    requires t == ReceiverTiers(sy, ref)
    ensures forall n :: n in FirstTier(ref, t).0 ==> Dispatched(sy, ReceiverClasses(sy, ref), ref.targetName, n)
  {
    var k := FirstNonEmptyTier(t);
    if k < |t| {
      FirstTierAt(ref, t, k);
      TierDispatches(sy, ref, k);
    } else {
      FirstTierEmpty(ref, t);
    }
  }

  function FirstNonEmptyTier(tiers: seq<Hits>): (k: nat)
    ensures k <= |tiers| && (k < |tiers| ==> tiers[k].0 != [])
    ensures forall i :: 0 <= i < k ==> tiers[i].0 == []
  {
    if tiers == [] || tiers[0].0 != [] then 0 else 1 + FirstNonEmptyTier(tiers[1..])
  }

  lemma {:induction false} FirstTierAt(ref: RawRef, tiers: seq<Hits>, k: nat)
    requires k < |tiers| && tiers[k].0 != []
    requires forall i :: 0 <= i < k ==> tiers[i].0 == []
    ensures FirstTier(ref, tiers) == ApplyArity(ref, tiers[k].0, tiers[k].1)
  {
    if k > 0 { FirstTierAt(ref, tiers[1..], k - 1); }
  }

  lemma {:induction false} FirstTierEmpty(ref: RawRef, tiers: seq<Hits>)
    requires forall i :: 0 <= i < |tiers| ==> tiers[i].0 == []
    ensures FirstTier(ref, tiers) == NOTHING
  {
    if tiers != [] { FirstTierEmpty(ref, tiers[1..]); }
  }

  /** A candidate is a callable node of the list, named as the call names it. */
  ghost predicate CandidateFor(nodes: seq<Node>, name: string, n: Node) {
    n in nodes && n.name == name && IsCallable(n)
  }

  lemma DeclaredAreCandidates(ix: Indices, nodes: seq<Node>, cls: string, name: string)
    requires Built(ix, nodes)
    ensures forall n :: n in DeclaredBy(ix.methodsOfClass, cls, name) ==> CandidateFor(nodes, name, n)
  {
    assert DeclaredBy(ix.methodsOfClass, cls, name) == Select(nodes,
                                                              FiledUnder(MethodsOfClass, ix.scopes, (name, Some(cls))));
  }

  lemma DispatchedAreCandidates(sy: Symbols, nodes: seq<Node>, classes: seq<string>, name: string, n: Node)
    requires Built(sy.ix, nodes) && Dispatched(sy, classes, name, n)
    ensures CandidateFor(nodes, name, n)
  {
    var c :| c in classes && DispatchesTo(sy, c, name, n);
    DeclaredAreCandidates(sy.ix, nodes, c, name);
    if n !in DeclaredBy(sy.ix.methodsOfClass, c, name) {
      var anc :| NearestDeclaring(sy.supers, sy.ix.methodsOfClass, c, name, anc)
        && n in DeclaredBy(sy.ix.methodsOfClass, anc, name);
      DeclaredAreCandidates(sy.ix, nodes, anc, name);
    }
  }

  lemma NarrowCallCases(sy: Symbols, ref: RawRef)
    ensures NarrowCall(sy, ref).0 == [] <==>
      (ref.recvType != "" && ref.recvType !in sy.ix.classesByName) || Pool(sy.ix, ref.targetName) == []
    ensures forall n :: n in NarrowCall(sy, ref).0 ==>
      n in Pool(sy.ix, ref.targetName) || n in ScopedCall(sy.ix, ref).0 || n in ReceivedCall(sy, ref).0
  {
    ImportedFromPool(sy, ref, Pool(sy.ix, ref.targetName), FileOf(sy.ix.scopes, ref.src));
  }

  lemma ImportedFromPool(sy: Symbols, ref: RawRef, pool: seq<Node>, file: string)
    ensures forall n :: n in ImportedCall(sy, ref, pool, file).0 ==> n in pool
  {
  }

  /** Every candidate bears the called name, and a call goes without only when it must. */
  lemma NarrowCallIsSound(sy: Symbols, nodes: seq<Node>, ref: RawRef)
    requires Built(sy.ix, nodes)
    ensures forall n :: n in NarrowCall(sy, ref).0 ==> CandidateFor(nodes, ref.targetName, n)
    ensures NarrowCall(sy, ref).0 == [] <==>
      (ref.recvType != "" && !ClassExists(nodes, ref.recvType)) || !exists n :: CandidateFor(nodes, ref.targetName, n)
  {
    PoolIsScan(sy.ix, nodes, ref.targetName);
    PoolCandidates(nodes, ref.targetName);
    ClassKnown(sy.ix, nodes, ref.recvType);
    NarrowCallCases(sy, ref);
    ScopedFromPool(sy.ix, nodes, ref);
    ReceivedAreCandidates(sy, nodes, ref);
  }

  lemma ReceivedAreCandidates(sy: Symbols, nodes: seq<Node>, ref: RawRef)
    requires Built(sy.ix, nodes)
    ensures forall n :: n in ReceivedCall(sy, ref).0 ==> CandidateFor(nodes, ref.targetName, n)
  {
    ReceivedCallDispatches(sy, ref);
    forall n | n in ReceivedCall(sy, ref).0 ensures CandidateFor(nodes, ref.targetName, n) {
      DispatchedAreCandidates(sy, nodes, ReceiverClasses(sy, ref), ref.targetName, n);
    }
  }

  lemma PoolCandidates(nodes: seq<Node>, name: string)
    ensures forall n :: n in PoolByScan(nodes, name) ==> CandidateFor(nodes, name, n)
    ensures PoolByScan(nodes, name) == [] <==> !exists n :: CandidateFor(nodes, name, n)
  {
    var callables := Select(nodes, NamedLike(CALLABLES, name));
    if n :| CandidateFor(nodes, name, n) { assert n in callables; }
    if PoolByScan(nodes, name) != [] { assert PoolByScan(nodes, name)[0] in PoolByScan(nodes, name); }
  }

  lemma ScopedFromPool(ix: Indices, nodes: seq<Node>, ref: RawRef)
    requires Built(ix, nodes)
    ensures forall n :: n in ScopedCall(ix, ref).0 ==> n in PoolByScan(nodes, ref.targetName)
  {
    var parent, file := ParentOf(ix.scopes.parents, ref.src), FileOf(ix.scopes, ref.src);
    if parent.Some? { ScopeProbeFromPool(ix, nodes, ref.targetName, parent.value); }
    if file != "" { FileProbeFromPool(ix, nodes, ref.targetName, file); }
  }

  lemma ScopeProbeFromPool(ix: Indices, nodes: seq<Node>, name: string, parent: string)
    requires Built(ix, nodes)
    ensures forall n :: n in Probe(ix, ix.byNameParent, name, parent) ==> n in PoolByScan(nodes, name)
  {
    ScopeProbeIsFilter(ix, nodes, name, parent);
  }

  lemma FileProbeFromPool(ix: Indices, nodes: seq<Node>, name: string, file: string)
    requires Built(ix, nodes) && file != ""
    ensures forall n :: n in Probe(ix, ix.byNameFile, name, file) ==> n in PoolByScan(nodes, name)
  {
    FileProbeIsFilter(ix, nodes, name, file);
  }
}
