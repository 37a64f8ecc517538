/** The class hierarchy read from class-file headers, and the ancestor walk over it. */
module BytecodeHierarchy {
  import opened Graphs
  import opened GraphModel

  datatype Header = Header(superName: string, interfaces: seq<string>)

  /** The parsed headers, by binary class name. */
  type Headers = map<string, Header>

  /** Superclass and interfaces, as named by the header; a name may be empty. */
  function DirectAncestors(h: Headers, binary: string): seq<string> {
    if binary !in h then []
    else (if h[binary].superName != "" then [h[binary].superName] else []) + h[binary].interfaces
  }

  /** From each parsed class to its superclass and to each interface, where the header names them. */
  ghost function Links(h: Headers): Arcs { set b, a | b in h && a in Named(h[b]) && a != "" :: (b, a) }

  ghost function Named(hd: Header): set<string> { {hd.superName} + set i | i in hd.interfaces }

  lemma LinkIffListed(h: Headers, b: string, a: string)
    ensures (b, a) in Links(h) <==> a in DirectAncestors(h, b) && a != ""
    ensures a in DirectAncestors(h, b) ==> a in Names(h)
  {
    if a in DirectAncestors(h, b) { assert a in Named(h[b]); }
  }

  ghost function Names(h: Headers): set<string> {
    set b, a | b in h && a in Named(h[b]) :: a
  }

  /** What the extracted source knows of a binary name: the class's node, and its method with a given erased
      signature. */
  datatype SourceIndex = SourceIndex(
    classId: string -> Option<string>,
    overrideTarget: (string, string, string) -> Option<string>,
    fileOf: string -> string)

  /** Every ancestor without a header is outside the repository. */
  ghost predicate Complete(ix: SourceIndex, h: Headers, binary: string) {
    forall c {:trigger ReachesAbove(Links(h), binary, c)} :: ReachesAbove(Links(h), binary, c) && c !in h ==>
      ix.classId(c).None?
  }

  /** The walk so far: everything seen or waiting is above `binary`, and what is missing is waiting. */
  ghost predicate Frontier(h: Headers, binary: string, visited: set<string>, stack: seq<string>) {
    var r := Links(h);
    && visited <= Names(h) && (forall c :: c in stack ==> c in Names(h))
    && (forall c :: c in visited || (c in stack && c != "") ==> ReachesAbove(r, binary, c))
    && (forall c :: (binary, c) in r ==> c in visited || c in stack)
    && (forall u, w :: u in visited && (u, w) in r ==> w in visited || w in stack)
  }

  lemma FrontierStart(h: Headers, binary: string)
    ensures Frontier(h, binary, {}, DirectAncestors(h, binary))
  {
    forall c { LinkIffListed(h, binary, c); }
    forall c | c in DirectAncestors(h, binary) && c != "" ensures ReachesAbove(Links(h), binary, c) {
      AboveFirst(Links(h), binary, c);
    }
  }

  lemma FrontierPop(h: Headers, binary: string, visited: set<string>, stack: seq<string>)
    requires stack != [] && Frontier(h, binary, visited, stack)
    ensures var anc, rest := stack[|stack| - 1], stack[..|stack| - 1];
      if anc == "" || anc in visited then Frontier(h, binary, visited, rest)
      else anc in Names(h) && Frontier(h, binary, visited + {anc}, rest + DirectAncestors(h, anc))
  {
    var anc, rest := stack[|stack| - 1], stack[..|stack| - 1];
    assert stack == rest + [anc];
    if anc != "" && anc !in visited {
      FrontierEnter(h, binary, visited, rest, anc);
    }
  }

  lemma FrontierEnter(h: Headers, binary: string, visited: set<string>, rest: seq<string>, anc: string)
    requires Frontier(h, binary, visited, rest + [anc]) && anc != ""
    ensures anc in Names(h) && Frontier(h, binary, visited + {anc}, rest + DirectAncestors(h, anc))
  {
    assert anc in rest + [anc];
    forall c { LinkIffListed(h, anc, c); }
    forall c | c in DirectAncestors(h, anc) && c != "" ensures ReachesAbove(Links(h), binary, c) {
      AboveNext(Links(h), binary, anc, c);
    }
  }

  lemma FewerNames(h: Headers, visited: set<string>, anc: string)
    requires anc in Names(h) && anc !in visited
    ensures |Names(h) - (visited + {anc})| < |Names(h) - visited|
  {
    assert Names(h) - (visited + {anc}) == (Names(h) - visited) - {anc};
  }

  /** Each name once. */
  predicate NoRepeats(xs: seq<string>) {
    forall i, j :: 0 <= i < j < |xs| ==> xs[i] != xs[j]
  }

  /** `chain` lists `visited`, and `complete` judges it. */
  ghost predicate Listed(ix: SourceIndex, h: Headers, visited: set<string>, chain: seq<string>, complete: bool) {
    && NoRepeats(chain) && (forall c :: c in chain <==> c in visited)
    && (complete <==> forall c :: c in visited && c !in h ==> ix.classId(c).None?)
  }

  lemma ListedNext(ix: SourceIndex, h: Headers, visited: set<string>, chain: seq<string>, complete: bool, anc: string)
    requires Listed(ix, h, visited, chain, complete) && anc !in visited
    ensures Listed(ix, h, visited + {anc}, chain + [anc], complete && (anc in h || ix.classId(anc).None?))
  {
  }

  /** Lists exactly the ancestors of `binary`, each once, and tells whether all of them are parsed or foreign. */
  method WalkChain(ix: SourceIndex, h: Headers, binary: string) returns (chain: seq<string>, complete: bool)
    ensures NoRepeats(chain)
    ensures forall c :: c in chain <==> ReachesAbove(Links(h), binary, c)
    ensures complete <==> Complete(ix, h, binary)
  {
    chain, complete := [], true;
    var visited: set<string> := {};
    var stack := DirectAncestors(h, binary);
    FrontierStart(h, binary);
    while stack != []
      invariant Frontier(h, binary, visited, stack)
      invariant Listed(ix, h, visited, chain, complete)
      decreases |Names(h) - visited|, |stack|
    {
      var anc := stack[|stack| - 1];
      FrontierPop(h, binary, visited, stack);
      stack := stack[..|stack| - 1];
      if anc != "" && anc !in visited {
        FewerNames(h, visited, anc);
        ListedNext(ix, h, visited, chain, complete, anc);
        visited := visited + {anc};
        chain := chain + [anc];
        if anc !in h && ix.classId(anc).Some? {
          complete := false;
        }
        stack := stack + DirectAncestors(h, anc);
      }
    }
    WalkIsDone(h, binary, visited);
  }

  lemma WalkIsDone(h: Headers, binary: string, visited: set<string>)
    requires Frontier(h, binary, visited, [])
    ensures forall c :: c in visited <==> ReachesAbove(Links(h), binary, c)
  {
    ClosedIsAbove(Links(h), binary, visited);
  }

  /** More headers, all of them of classes of the repository. */
  ghost predicate ReadsMore(ix: SourceIndex, h: Headers, more: Headers) {
    && (forall b :: b in h ==> b in more && more[b] == h[b])
    && (forall b :: b in more && b !in h ==> ix.classId(b).Some?)
  }

  ghost predicate SameAncestors(h: Headers, more: Headers, binary: string) {
    forall c :: ReachesAbove(Links(more), binary, c) <==> ReachesAbove(Links(h), binary, c)
  }

  /** A complete chain is final: no header that could still be read adds an ancestor. */
  lemma CompleteIsFinal(ix: SourceIndex, h: Headers, more: Headers, binary: string)
    requires binary in h && Complete(ix, h, binary) && ReadsMore(ix, h, more)
    ensures SameAncestors(h, more, binary)
  {
    var r := Links(more);
    assert Links(h) <= r;
    var above := set c | c in Names(h) && ReachesAbove(Links(h), binary, c);
    forall c | ReachesAbove(Links(h), binary, c) ensures c in above && ReachesAbove(r, binary, c) {
      var n: nat :| 0 < n && Steps(Links(h), binary, c, n);
      var m := StepsLast(Links(h), binary, c, n);
      StepsMonotone(Links(h), r, binary, c, n);
    }
    forall c | (binary, c) in r ensures c in above {
      AboveFirst(Links(h), binary, c);
    }
    forall u, w | u in above && (u, w) in r ensures w in above {
      assert u in h;
      AboveNext(Links(h), binary, u, w);
    }
    ClosedIsAbove(r, binary, above);
  }

  /** A name longer than all those of `s`. */
  lemma {:induction false} NewName(s: set<string>) returns (x: string)
    ensures x != "" && forall y :: y in s ==> |y| < |x|
    decreases |s|
  {
    if s == {} {
      x := "a";
    } else {
      var y :| y in s;
      var z := NewName(s - {y});
      x := y + z;
      assert forall w :: w in s ==> w == y || w in s - {y};
    }
  }

  /** An incomplete chain is not final: the header still missing may name a supertype nobody has seen. */
  lemma IncompleteMayGrow(ix: SourceIndex, h: Headers, binary: string) returns (more: Headers)
    requires binary in h && !Complete(ix, h, binary)
    ensures ReadsMore(ix, h, more) && !SameAncestors(h, more, binary)
  {
    var c :| ReachesAbove(Links(h), binary, c) && c !in h && ix.classId(c).Some?;
    var x := NewName(Names(h));
    more := h[c := Header(x, [])];
    assert Links(h) <= Links(more);
    var n: nat :| 0 < n && Steps(Links(h), binary, c, n);
    StepsMonotone(Links(h), Links(more), binary, c, n);
    assert x in DirectAncestors(more, c);
    AboveNext(Links(more), binary, c, x);
    if ReachesAbove(Links(h), binary, x) {
      var k: nat :| 0 < k && Steps(Links(h), binary, x, k);
      var m := StepsLast(Links(h), binary, x, k);
      assert false;
    }
  }

  /** Authority is exactly the claim that reading more of the repository could not change the ancestors. */
  lemma CompleteIffFinal(ix: SourceIndex, h: Headers, binary: string)
    requires binary in h
    ensures Complete(ix, h, binary) <==> forall more :: ReadsMore(ix, h, more) ==> SameAncestors(h, more, binary)
  {
    if Complete(ix, h, binary) {
      forall more | ReadsMore(ix, h, more) ensures SameAncestors(h, more, binary) {
        CompleteIsFinal(ix, h, more, binary);
      }
    } else {
      var more := IncompleteMayGrow(ix, h, binary);
    }
  }
}
