/** What a call can reach, said of the nodes, the containment tree, the imports and the supertypes alone. */
module CallMeaning {
  import opened GraphModel
  import opened LookupIndices
  import opened DottedNames
  import opened Containment
  import opened Ancestors
  import opened Narrowing
  import opened Dispatch
  import opened Visibility

  // ---- the tiers in words ---------------------------------------------------------

  /** A function of the name; a class of the name if there is no such function. */
  ghost predicate Considered(nodes: seq<Node>, name: string, n: Node) {
    && n in nodes && n.name == name
    && (n.tag == "Function" || (n.tag == "Class" && forall m :: m in nodes && m.name == name ==> m.tag != "Function"))
  }

  /** A method of the name that the class contains. */
  ghost predicate MethodOf(w: World, cls: string, name: string, n: Node) {
    && n in w.nodes && n.tag == "Function" && n.kind == "method" && n.name == name
    && n.id in w.sc.parents && w.sc.parents[n.id] == cls
    && cls != "" && cls in w.sc.byId && w.sc.byId[cls].tag == "Class"
  }

  /** A method of the first class of the list that has one of the name. */
  ghost predicate FirstOf(w: World, chain: seq<string>, name: string, n: Node) {
    exists i :: 0 <= i < |chain| && MethodOf(w, chain[i], name, n)
             && forall j, m :: 0 <= j < i ==> !MethodOf(w, chain[j], name, m)
  }

  ghost predicate InheritsFrom(w: World, cls: string, name: string, n: Node) {
    FirstOf(w, AncestorChain(w.supers, cls), name, n)
  }

  /** The class can be meant by a name in the caller's file. */
  ghost predicate Meant(w: World, ref: RawRef, name: string, c: Node) {
    name != "" && MostVisible(w.nodes, w.im, SourceFile(w, ref), name, c)
  }

  ghost predicate Self(ref: RawRef) { ref.recv == "self" || ref.recv == "cls" }

  /** The caller's class, when the receiver is the caller itself. */
  ghost predicate OwnClass(w: World, ref: RawRef, cls: string) {
    Self(ref) && EnclosingClass(w.sc, ref.src) == Some(cls)
  }

  /** A candidate stands in the container of the caller, or in its file. */
  ghost predicate Near(w: World, ref: RawRef, k: int, n: Node) {
    && Considered(w.nodes, ref.targetName, n)
    && if k == 0 then ref.src in w.sc.parents && n.id in w.sc.parents && w.sc.parents[n.id] == w.sc.parents[ref.src]
       else SourceFile(w, ref) != "" && n.file == SourceFile(w, ref)
  }

  /** The caller's file imports its owner by full name, one of its segments, or its simple name. */
  ghost predicate Imported(w: World, ref: RawRef, k: int, n: Node) {
    var file := SourceFile(w, ref);
    && Considered(w.nodes, ref.targetName, n) && file != ""
    && if k == 2 then file in w.im.fqns && exists o :: o in w.im.fqns[file] && Owns(o, n)
       else if k == 3 then file in w.im.tails && exists t :: t in w.im.tails[file] && Dotted(n.fqn, t)
       else file in w.im.names && (n.name in w.im.names[file] || exists t :: t in w.im.names[file] && IsTail(n.fqn, t))
  }

  /** A class that the name can mean declares it, or inherits it. */
  ghost predicate Declares(w: World, ref: RawRef, name: string, n: Node) {
    exists c :: Meant(w, ref, name, c) && MethodOf(w, c.id, ref.targetName, n)
  }

  ghost predicate Inherits(w: World, ref: RawRef, name: string, n: Node) {
    exists c :: Meant(w, ref, name, c) && InheritsFrom(w, c.id, ref.targetName, n)
  }

  /** The caller's own class does, when the receiver is the caller itself. */
  ghost predicate OwnDeclares(w: World, ref: RawRef, n: Node) {
    exists cls :: OwnClass(w, ref, cls) && MethodOf(w, cls, ref.targetName, n)
  }

  ghost predicate OwnInherits(w: World, ref: RawRef, n: Node) {
    exists cls :: OwnClass(w, ref, cls) && InheritsFrom(w, cls, ref.targetName, n)
  }

  /** By the receiver: its declared type, the caller's own class, or a class it names; own methods first each time. */
  ghost predicate Received(w: World, ref: RawRef, k: int, n: Node) {
    if k == 5 then Declares(w, ref, ref.recvType, n)
    else if k == 6 then Inherits(w, ref, ref.recvType, n)
    else if k == 7 then OwnDeclares(w, ref, n)
    else if k == 8 then OwnInherits(w, ref, n)
    else if k == 9 then !Self(ref) && Declares(w, ref, ref.recv, n)
    else !Self(ref) && Inherits(w, ref, ref.recv, n)
  }

  /** What relates a candidate to the call, strongest first; last, nothing but the name. */
  ghost predicate InTier(w: World, ref: RawRef, k: int, n: Node) {
    if k < 0 then false
    else if k < 2 then Near(w, ref, k, n)
    else if k < 5 then Imported(w, ref, k, n)
    else if k < 11 then Received(w, ref, k, n)
    else k == 11 && Considered(w.nodes, ref.targetName, n)
  }

  function Label(k: int): string {
    match k
    case 0 => "same_scope"
    case 1 => "same_file"
    case 2 => "imports_qualified_exact"
    case 3 => "imports_qualified"
    case 4 => "imports"
    case 5 => "receiver_type_hint"
    case 6 => "receiver_type_hint_inherited"
    case 7 => "receiver_type"
    case 8 => "receiver_type_inherited"
    case 9 => "receiver_type"
    case 10 => "receiver_type_inherited"
    case _ => "name"
  }

  /** The strongest relation that any candidate has to the call. */
  ghost predicate Strongest(w: World, ref: RawRef, k: int) {
    (exists n :: InTier(w, ref, k, n)) && forall j, m :: j < k ==> !InTier(w, ref, j, m)
  }

  /** The number of arguments is known and fits, or it fits no candidate of the tier. */
  ghost predicate ArityFits(w: World, ref: RawRef, k: int, n: Node) {
    ref.callArity < 0 || n.paramCount == ref.callArity || forall m :: InTier(w, ref, k, m) ==>
      m.paramCount != ref.callArity
  }

  ghost predicate CallHit(w: World, ref: RawRef, n: Node) {
    exists k :: Strongest(w, ref, k) && InTier(w, ref, k, n) && ArityFits(w, ref, k, n)
  }

  // ---- the arity step ----------------------------------------------------------------

  lemma ArityHits(ref: RawRef, candidates: seq<Node>, base: string, n: Node)
    ensures n in ApplyArity(ref, candidates, base).0 <==>
      && n in candidates
      && (ref.callArity < 0 || n.paramCount == ref.callArity || forall m :: m in candidates ==>
        m.paramCount != ref.callArity)
    ensures ApplyArity(ref, candidates, base).1
         == if ref.callArity >= 0 &&
           exists m :: m in candidates && m.paramCount == ref.callArity then base + "+arity" else base
  {
    SelectNone(candidates, WithArity(ref.callArity));
    if m :| m in candidates && m.paramCount == ref.callArity {
      assert m in Select(candidates, WithArity(ref.callArity)) || !WithArity(ref.callArity)(m);
    }
  }

  // ---- the scanned tiers are the tiers in words ------------------------------------------

  lemma PoolIff(nodes: seq<Node>, name: string, n: Node)
    ensures n in PoolByScan(nodes, name) <==> Considered(nodes, name, n)
  {
    SelectNone(nodes, NamedLike({"Function"}, name));
    var fns := Select(nodes, NamedLike({"Function"}, name));
    if m :| m in nodes && m.name == name && m.tag == "Function" { assert m in fns; }
    if fns != [] { assert fns[0] in fns; }
  }

  lemma MethodsIff(w: World, cls: string, name: string, n: Node)
    ensures n in MethodsOf(w, cls, name) <==> MethodOf(w, cls, name, n)
  {
  }

  ghost predicate SomeDeclares(w: World, classes: seq<Node>, name: string, n: Node) {
    exists c :: c in classes && MethodOf(w, c.id, name, n)
  }

  lemma SomeDeclaresNext(w: World, rest: seq<Node>, last: Node, name: string, n: Node)
    ensures SomeDeclares(w, rest + [last], name, n) <==> SomeDeclares(w, rest, name, n) || MethodOf(w, last.id, name, n)
  {
    var all := rest + [last];
    if c :| c in rest && MethodOf(w, c.id, name, n) { assert c in all; }
    if MethodOf(w, last.id, name, n) { assert last in all; }
  }

  lemma {:induction false} OwnIff(w: World, classes: seq<Node>, name: string, n: Node)
    ensures n in OwnByScan(w, classes, name) <==> SomeDeclares(w, classes, name, n)
  {
    if classes != [] {
      var rest, last := classes[..|classes| - 1], classes[|classes| - 1];
      OwnIff(w, rest, name, n);
      MethodsIff(w, last.id, name, n);
      assert classes == rest + [last];
      SomeDeclaresNext(w, rest, last, name, n);
    }
  }

  lemma {:induction false} FirstIff(w: World, chain: seq<string>, name: string, n: Node)
    ensures n in FirstByScan(w, chain, name) <==> FirstOf(w, chain, name, n)
  {
    if chain != [] {
      var head, rest := MethodsOf(w, chain[0], name), chain[1..];
      forall m ensures m in head <==> MethodOf(w, chain[0], name, m) { MethodsIff(w, chain[0], name, m); }
      FirstIff(w, rest, name, n);
      if head != [] {
        assert head[0] in head;
      } else {
        FirstOfRest(w, chain, name, n);
      }
    }
  }

  lemma FirstOfRest(w: World, chain: seq<string>, name: string, n: Node)
    requires chain != [] && forall m :: !MethodOf(w, chain[0], name, m)
    ensures FirstOf(w, chain, name, n) <==> FirstOf(w, chain[1..], name, n)
  {
    var rest := chain[1..];
    if FirstOf(w, chain, name, n) {
      var i :| 0 <= i < |chain| && MethodOf(w, chain[i], name, n)
            && forall j, m :: 0 <= j < i ==> !MethodOf(w, chain[j], name, m);
      assert MethodOf(w, rest[i - 1], name, n);
      forall j, m | 0 <= j < i - 1 ensures !MethodOf(w, rest[j], name, m) { assert rest[j] == chain[j + 1]; }
    }
    if FirstOf(w, rest, name, n) {
      var i :| 0 <= i < |rest| && MethodOf(w, rest[i], name, n)
            && forall j, m :: 0 <= j < i ==> !MethodOf(w, rest[j], name, m);
      assert MethodOf(w, chain[i + 1], name, n);
      forall j, m | 0 <= j < i + 1 ensures !MethodOf(w, chain[j], name, m) { assert j > 0 ==> chain[j] == rest[j - 1]; }
    }
  }

  ghost predicate SomeInherits(w: World, ids: seq<string>, name: string, n: Node) {
    exists c :: c in ids && InheritsFrom(w, c, name, n)
  }

  lemma SomeInheritsNext(w: World, rest: seq<string>, last: string, name: string, n: Node)
    ensures SomeInherits(w, rest + [last], name, n) <==>
      SomeInherits(w, rest, name, n) || InheritsFrom(w, last, name, n)
  {
    var ids := rest + [last];
    if c :| c in rest && InheritsFrom(w, c, name, n) { assert c in ids; }
    if InheritsFrom(w, last, name, n) { assert last in ids; }
  }

  lemma InheritedNext(w: World, rest: seq<string>, last: string, name: string, n: Node)
    ensures n in InheritedByScan(w, rest + [last], name) <==>
      n in InheritedByScan(w, rest, name) || n in FirstByScan(w, AncestorChain(w.supers, last), name)
  {
    assert (rest + [last])[..|rest|] == rest;
  }

  lemma {:induction false} InheritedIff(w: World, ids: seq<string>, name: string, n: Node)
    ensures n in InheritedByScan(w, ids, name) <==> SomeInherits(w, ids, name, n)
  {
    if ids != [] {
      var rest, last := ids[..|ids| - 1], ids[|ids| - 1];
      assert ids == rest + [last];
      InheritedIff(w, rest, name, n);
      InheritedNext(w, rest, last, name, n);
      FirstIff(w, AncestorChain(w.supers, last), name, n);
      SomeInheritsNext(w, rest, last, name, n);
    }
  }

  lemma IdsIff(classes: seq<Node>, id: string)
    ensures id in Ids(classes) <==> exists c :: c in classes && c.id == id
  {
    if c :| c in classes && c.id == id {
      var i :| 0 <= i < |classes| && classes[i] == c;
      assert Ids(classes)[i] == id;
    }
    if id in Ids(classes) {
      var i :| 0 <= i < |classes| && Ids(classes)[i] == id;
      assert classes[i] in classes;
    }
  }

  /** The own and the inherited tier for the classes that a name can mean. */
  lemma MeantTiers(w: World, ref: RawRef, cname: string, classes: seq<Node>, name: string, n: Node)
    requires forall c :: c in classes <==> Meant(w, ref, cname, c)
    ensures n in OwnByScan(w, classes, name) <==> exists c :: Meant(w, ref, cname, c) && MethodOf(w, c.id, name, n)
    ensures n in InheritedByScan(w, Ids(classes), name) <==>
      exists c :: Meant(w, ref, cname, c) && InheritsFrom(w, c.id, name, n)
  {
    OwnIff(w, classes, name, n);
    InheritedIff(w, Ids(classes), name, n);
    forall id ensures id in Ids(classes) <==> exists c :: c in classes && c.id == id { IdsIff(classes, id); }
    if c :| Meant(w, ref, cname, c) && InheritsFrom(w, c.id, name, n) {
      assert c in classes && c.id in Ids(classes);
    }
  }

  lemma MeantIff(w: World, ref: RawRef, cname: string, c: Node)
    requires TailsPlain(w.im)
    ensures c in When(cname != "", VisibleByScan(w, ref, cname)) <==> Meant(w, ref, cname, c)
  {
    NarrowedAreVisible(w.nodes, w.im, SourceFile(w, ref), cname);
  }

  lemma NearIff(w: World, ref: RawRef, k: int, n: Node)
    requires 0 <= k < 2
    ensures n in ScopeTiers(w.sc, PoolByScan(w.nodes, ref.targetName), ref)[k].0 <==> Near(w, ref, k, n)
  {
    PoolIff(w.nodes, ref.targetName, n);
  }

  lemma ImportedIff(w: World, ref: RawRef, k: int, n: Node)
    requires 2 <= k < 5 && TailsPlain(w.im)
    ensures n in ImportTiers(w.im, PoolByScan(w.nodes, ref.targetName), FileOf(w.sc, ref.src))[k - 2].0
      <==> Imported(w, ref, k, n)
  {
    PoolIff(w.nodes, ref.targetName, n);
    ImportsOf(w.im, PoolByScan(w.nodes, ref.targetName), SourceFile(w, ref), n);
  }

  lemma ImportsOf(im: Imports, pool: seq<Node>, file: string, n: Node)
    requires TailsPlain(im)
    ensures var t := ImportTiers(im, pool, file);
      && (n in t[0].0 <==> n in pool && file != "" && file in im.fqns && exists o :: o in im.fqns[file] && Owns(o, n))
      && (n in t[1].0 <==>
            && n in pool && file != "" && file in im.tails
            && exists s :: s in im.tails[file] && Dotted(n.fqn, s))
      && (n in t[2].0 <==>
            && n in pool && file != "" && file in im.names
            && (n.name in im.names[file] || exists s :: s in im.names[file] && IsTail(n.fqn, s)))
  {
    OwnerIff(At(im.fqns, file), n);
    QualifiedHitsAreDotted(pool, At(im.tails, file));
    TailInIff(At(im.names, file), n.fqn);
  }

  lemma OwnerIff(owners: set<string>, n: Node)
    ensures OwnerFqn(n) in owners <==> exists o :: o in owners && Owns(o, n)
  {
    OwnsIff(OwnerFqn(n), n);
    forall o | o in owners && Owns(o, n) ensures o == OwnerFqn(n) { OwnsIff(o, n); }
  }

  lemma TailInIff(names: set<string>, name: string)
    ensures TailName(name) in names <==> exists t :: t in names && IsTail(name, t)
  {
    forall t | t in names && IsTail(name, t) ensures t == TailName(name) { TailIff(name, t); }
  }

  lemma HintedIff(w: World, ref: RawRef, n: Node)
    requires TailsPlain(w.im)
    ensures n in ReceiverTiersByScan(w, ref)[0].0 <==> Declares(w, ref, ref.recvType, n)
    ensures n in ReceiverTiersByScan(w, ref)[1].0 <==> Inherits(w, ref, ref.recvType, n)
  {
    var classes := When(ref.recvType != "", VisibleByScan(w, ref, ref.recvType));
    forall c ensures c in classes <==> Meant(w, ref, ref.recvType, c) { MeantIff(w, ref, ref.recvType, c); }
    MeantTiers(w, ref, ref.recvType, classes, ref.targetName, n);
  }

  lemma NamedIff(w: World, ref: RawRef, n: Node)
    requires TailsPlain(w.im)
    ensures n in ReceiverTiersByScan(w, ref)[4].0 <==> !Self(ref) && Declares(w, ref, ref.recv, n)
    ensures n in ReceiverTiersByScan(w, ref)[5].0 <==> !Self(ref) && Inherits(w, ref, ref.recv, n)
  {
    var classes := When(ref.recv != "" && !IsSelf(ref.recv), VisibleByScan(w, ref, ref.recv));
    if Self(ref) {
      OwnIff(w, classes, ref.targetName, n);
      InheritedIff(w, Ids(classes), ref.targetName, n);
    } else {
      forall c ensures c in classes <==> Meant(w, ref, ref.recv, c) { MeantIff(w, ref, ref.recv, c); }
      MeantTiers(w, ref, ref.recv, classes, ref.targetName, n);
    }
  }

  lemma SelfIff(w: World, ref: RawRef, n: Node)
    ensures n in ReceiverTiersByScan(w, ref)[2].0 <==> OwnDeclares(w, ref, n)
    ensures n in ReceiverTiersByScan(w, ref)[3].0 <==> OwnInherits(w, ref, n)
  {
    var self := if IsSelf(ref.recv) then EnclosingClass(w.sc, ref.src) else None;
    if self.Some? {
      assert OwnClass(w, ref, self.value);
      MethodsIff(w, self.value, ref.targetName, n);
      InheritedIff(w, [self.value], ref.targetName, n);
    }
  }

  lemma ReceivedInTier(w: World, ref: RawRef, n: Node, k: int)
    requires 5 <= k < 11
    ensures InTier(w, ref, k, n) <==>
      if k == 5 then Declares(w, ref, ref.recvType, n)
      else if k == 6 then Inherits(w, ref, ref.recvType, n)
      else if k == 7 then OwnDeclares(w, ref, n)
      else if k == 8 then OwnInherits(w, ref, n)
      else if k == 9 then !Self(ref) && Declares(w, ref, ref.recv, n)
      else !Self(ref) && Inherits(w, ref, ref.recv, n)
  {
  }

  lemma ReceivedIff(w: World, ref: RawRef, t: seq<Hits>, n: Node, k: int)
    requires 5 <= k < 11 && |t| == 6 && t == ReceiverTiersByScan(w, ref) && TailsPlain(w.im)
    ensures n in t[k - 5].0 <==> InTier(w, ref, k, n)
  {
    ReceivedInTier(w, ref, n, k);
    if k < 7 {
      HintedIff(w, ref, n);
    } else if k < 9 {
      SelfIff(w, ref, n);
    } else {
      NamedIff(w, ref, n);
    }
  }

  /** The tiers, with their labels, hold what is related to the call in each way. */
  ghost predicate AreTiers(w: World, ref: RawRef, tiers: seq<Hits>) {
    && |tiers| == 12
    && (forall k :: 0 <= k < 12 ==> tiers[k].1 == Label(k))
    && forall k, n :: 0 <= k < 12 ==> (n in tiers[k].0 <==> InTier(w, ref, k, n))
  }

  lemma ScannedTiers(w: World, ref: RawRef) returns (tiers: seq<Hits>)
    requires TailsPlain(w.im)
    ensures var pool := PoolByScan(w.nodes, ref.targetName);
      tiers == ScopeTiers(w.sc, pool, ref) + (ImportTiers(w.im, pool, FileOf(w.sc, ref.src))
        + (ReceiverTiersByScan(w, ref) + [(pool, "name")]))
    ensures AreTiers(w, ref, tiers) && tiers[11] == (PoolByScan(w.nodes, ref.targetName), "name")
  {
    var pool := PoolByScan(w.nodes, ref.targetName);
    var scopes, imports := ScopeTiers(w.sc, pool, ref), ImportTiers(w.im, pool, FileOf(w.sc, ref.src));
    var received := ReceivedLabels(w, ref);
    NearLabels(w, ref, pool);
    ImportLabels(w.im, pool, FileOf(w.sc, ref.src));
    forall k, n | 0 <= k < 2 ensures n in scopes[k].0 <==> InTier(w, ref, k, n) { NearIff(w, ref, k, n); }
    forall k, n | 2 <= k < 5 ensures n in imports[k - 2].0 <==> InTier(w, ref, k, n) { ImportedIff(w, ref, k, n); }
    forall k, n | 5 <= k < 11 ensures n in received[k - 5].0 <==> InTier(w, ref, k, n) {
      ReceivedIff(w, ref, received, n, k);
    }
    forall n ensures n in pool <==> InTier(w, ref, 11, n) { PoolIff(w.nodes, ref.targetName, n); }
    tiers := Assembled(w, ref, scopes, imports, received, pool);
  }

  lemma NearLabels(w: World, ref: RawRef, pool: seq<Node>)
    ensures var t := ScopeTiers(w.sc, pool, ref); |t| == 2 && t[0].1 == Label(0) && t[1].1 == Label(1)
  {
  }

  lemma ImportLabels(im: Imports, pool: seq<Node>, file: string)
    ensures var t := ImportTiers(im, pool, file);
      |t| == 3 && t[0].1 == Label(2) && t[1].1 == Label(3) && t[2].1 == Label(4)
  {
  }

  lemma ReceivedLabels(w: World, ref: RawRef) returns (t: seq<Hits>)
    ensures t == ReceiverTiersByScan(w, ref) && |t| == 6 && forall k :: 5 <= k < 11 ==> t[k - 5].1 == Label(k)
  {
    t := ReceiverTiersByScan(w, ref);
    SixLabels(t);
  }

  lemma SixLabels(t: seq<Hits>)
    requires |t| == 6 && t[0].1 == "receiver_type_hint" && t[1].1 == "receiver_type_hint_inherited"
    requires t[2].1 == "receiver_type" && t[3].1 == "receiver_type_inherited"
    requires t[4].1 == "receiver_type" && t[5].1 == "receiver_type_inherited"
    ensures forall k :: 5 <= k < 11 ==> t[k - 5].1 == Label(k)
  {
  }

  lemma Assembled(w: World, ref: RawRef, scopes: seq<Hits>, imports: seq<Hits>, received: seq<Hits>, pool: seq<Node>)
    returns (tiers: seq<Hits>)
    requires |scopes| == 2 && |imports| == 3 && |received| == 6
    requires forall k :: 0 <= k < 2 ==> scopes[k].1 == Label(k)
    requires forall k :: 2 <= k < 5 ==> imports[k - 2].1 == Label(k)
    requires forall k :: 5 <= k < 11 ==> received[k - 5].1 == Label(k)
    requires forall k, n :: 0 <= k < 2 ==> (n in scopes[k].0 <==> InTier(w, ref, k, n))
    requires forall k, n :: 2 <= k < 5 ==> (n in imports[k - 2].0 <==> InTier(w, ref, k, n))
    requires forall k, n :: 5 <= k < 11 ==> (n in received[k - 5].0 <==> InTier(w, ref, k, n))
    requires forall n :: n in pool <==> InTier(w, ref, 11, n)
    ensures tiers == scopes + (imports + (received + [(pool, "name")])) && AreTiers(w, ref, tiers)
    ensures tiers[11] == (pool, "name")
  {
    tiers := scopes + (imports + (received + [(pool, "name")]));
    forall k, n | 0 <= k < 12 ensures n in tiers[k].0 <==> InTier(w, ref, k, n) {
      if k < 2 {
        assert tiers[k] == scopes[k];
      } else if k < 5 {
        assert tiers[k] == imports[k - 2];
      } else if k < 11 {
        assert tiers[k] == received[k - 5];
      } else {
        assert tiers[k] == (pool, "name");
      }
    }
  }

  // ---- what narrowing a call finds -----------------------------------------------------------

  /** The first nonempty tier is the strongest relation. */
  lemma FirstIsStrongest(w: World, ref: RawRef, tiers: seq<Hits>) returns (k: int)
    requires AreTiers(w, ref, tiers)
    ensures 0 <= k <= 12
    ensures k < 12 ==> tiers[k].0 != []
    ensures k < 12 ==> Strongest(w, ref, k) && FirstTier(ref, tiers) == ApplyArity(ref, tiers[k].0, Label(k))
    ensures k == 12 ==> FirstTier(ref, tiers) == NOTHING && forall j, m :: !InTier(w, ref, j, m)
  {
    k := FirstNonEmptyTier(tiers);
    if k < 12 {
      assert tiers[k].0[0] in tiers[k].0;
      FirstTierAt(ref, tiers, k);
    } else {
      FirstTierEmpty(ref, tiers);
    }
  }

  lemma OneStrongest(w: World, ref: RawRef, j: int, k: int)
    requires Strongest(w, ref, j) && Strongest(w, ref, k)
    ensures j == k
  {
  }

  lemma HitIff(w: World, ref: RawRef, k: int, tier: seq<Node>, n: Node)
    requires Strongest(w, ref, k) && forall m :: m in tier <==> InTier(w, ref, k, m)
    ensures n in ApplyArity(ref, tier, Label(k)).0 <==> CallHit(w, ref, n)
  {
    ArityHits(ref, tier, Label(k), n);
    if CallHit(w, ref, n) {
      var j :| Strongest(w, ref, j) && InTier(w, ref, j, n) && ArityFits(w, ref, j, n);
      OneStrongest(w, ref, j, k);
    }
  }

  lemma RelatedIsNamed(w: World, ref: RawRef, k: int, n: Node)
    requires InTier(w, ref, k, n)
    ensures PoolByScan(w.nodes, ref.targetName) != []
  {
    PoolIff(w.nodes, ref.targetName, n);
  }

  /** With no candidate of the name no tier has any. */
  lemma ScanIsFirstTier(w: World, ref: RawRef, tiers: seq<Hits>)
    requires AreTiers(w, ref, tiers) && (ref.recvType == "" || ClassExists(w.nodes, ref.recvType))
    requires var pool := PoolByScan(w.nodes, ref.targetName);
      tiers == ScopeTiers(w.sc, pool, ref) + (ImportTiers(w.im, pool, FileOf(w.sc, ref.src))
        + (ReceiverTiersByScan(w, ref) + [(pool, "name")]))
    ensures NarrowCallByScan(w, ref) == FirstTier(ref, tiers)
  {
    if PoolByScan(w.nodes, ref.targetName) == [] {
      var k := FirstIsStrongest(w, ref, tiers);
      if k < 12 {
        var n :| InTier(w, ref, k, n);
        RelatedIsNamed(w, ref, k, n);
      }
    }
  }

  /** What a tier's candidates are found by: the relation, and the arity when it fits some of them. */
  ghost function Said(w: World, ref: RawRef, k: int): string {
    if ref.callArity >= 0 && exists m :: InTier(w, ref, k, m) && m.paramCount == ref.callArity then Label(k) + "+arity"
    else Label(k)
  }

  lemma SaysIff(w: World, ref: RawRef, k: int, tier: seq<Node>)
    requires tier != [] && forall m :: m in tier <==> InTier(w, ref, k, m)
    ensures ApplyArity(ref, tier, Label(k)).1 == Said(w, ref, k)
  {
    ArityHits(ref, tier, Label(k), tier[0]);
  }

  /** Narrowing a call finds exactly the candidates of the strongest relation whose arity fits, and names that
      relation. */
  lemma NarrowCallMeans(w: World, ref: RawRef)
    requires TailsPlain(w.im) && (ref.recvType == "" || ClassExists(w.nodes, ref.recvType))
    ensures forall n :: n in NarrowCallByScan(w, ref).0 <==> CallHit(w, ref, n)
    ensures forall k :: Strongest(w, ref, k) ==> NarrowCallByScan(w, ref).1 == Said(w, ref, k)
  {
    var tiers := ScannedTiers(w, ref);
    ScanIsFirstTier(w, ref, tiers);
    var k := FirstIsStrongest(w, ref, tiers);
    if k < 12 {
      forall n ensures n in NarrowCallByScan(w, ref).0 <==> CallHit(w, ref, n) { HitIff(w, ref, k, tiers[k].0, n); }
      SaysIff(w, ref, k, tiers[k].0);
      forall j | Strongest(w, ref, j) ensures j == k { OneStrongest(w, ref, j, k); }
    }
  }

  /** When nothing but the name relates them, all that bear it are considered. */
  lemma ByNameIsPool(w: World, ref: RawRef)
    requires TailsPlain(w.im) && (ref.recvType == "" || ClassExists(w.nodes, ref.recvType)) && Strongest(w, ref, 11)
    ensures NarrowCallByScan(w, ref) == ApplyArity(ref, PoolByScan(w.nodes, ref.targetName), "name")
  {
    var tiers := ScannedTiers(w, ref);
    ScanIsFirstTier(w, ref, tiers);
    var k := FirstIsStrongest(w, ref, tiers);
    if k < 12 { OneStrongest(w, ref, 11, k); }
  }
}
