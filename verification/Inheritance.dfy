/** Inherited members: the memoized ancestor walk and the nearest declaration it finds. */
module Inheritance {
  import opened Graphs
  import opened GraphModel
  import opened LookupIndices
  import opened Ancestors

  function DeclaredBy(methods: Slots, cls: string, name: string): seq<Node> {
    Members(methods, (name, Some(cls)))
  }

  /** What the first class of `chain` that declares `name` declares under it. */
  function FirstDeclared(methods: Slots, chain: seq<string>, name: string): seq<Node> {
    if chain == [] then []
    else if DeclaredBy(methods, chain[0], name) != [] then DeclaredBy(methods, chain[0], name)
    else FirstDeclared(methods, chain[1..], name)
  }

  function InheritedBy(g: Hierarchy, methods: Slots, cls: string, name: string): seq<Node> {
    FirstDeclared(methods, AncestorChain(g, cls), name)
  }

  function Inherited(g: Hierarchy, methods: Slots, classIds: seq<string>, name: string): seq<Node> {
    if classIds == [] then []
    else Inherited(g, methods, classIds[..|classIds| - 1], name)
         + InheritedBy(g, methods, classIds[|classIds| - 1], name)
  }

  ghost predicate ProperAncestor(g: Hierarchy, cls: string, anc: string) {
    anc != cls && Reaches(ArcsOf(g), cls, anc)
  }

  /** No proper ancestor of `cls` that declares `name` is nearer to it than `anc`. */
  ghost predicate NearestDeclaring(g: Hierarchy, methods: Slots, cls: string, name: string, anc: string) {
    && ProperAncestor(g, cls, anc)
    && DeclaredBy(methods, anc, name) != []
    && forall other, n: nat ::
         ProperAncestor(g, cls, other) && DeclaredBy(methods, other, name) != [] && Within(ArcsOf(g), cls, other, n)
         ==> Within(ArcsOf(g), cls, anc, n)
  }

  lemma {:induction false} FirstDeclaredAt(methods: Slots, chain: seq<string>, name: string) returns (at: nat)
    ensures at <= |chain|
    ensures forall i :: 0 <= i < at ==> DeclaredBy(methods, chain[i], name) == []
    ensures at < |chain| ==> FirstDeclared(methods, chain, name) == DeclaredBy(methods, chain[at], name) != []
    ensures at == |chain| ==> FirstDeclared(methods, chain, name) == []
  {
    if chain == [] || DeclaredBy(methods, chain[0], name) != [] {
      at := 0;
    } else {
      at := FirstDeclaredAt(methods, chain[1..], name);
      at := at + 1;
    }
  }

  /** A call binds to a declaration no farther away than any other, and to nothing only when no ancestor declares the
      name. */
  lemma InheritedIsNearest(g: Hierarchy, methods: Slots, cls: string, name: string)
    ensures var hits := InheritedBy(g, methods, cls, name);
      if hits == [] then forall anc :: ProperAncestor(g, cls, anc) ==> DeclaredBy(methods, anc, name) == []
      else exists anc :: NearestDeclaring(g, methods, cls, name, anc) && hits == DeclaredBy(methods, anc, name)
  {
    ChainIsNearestFirst(g, cls);
    var chain := AncestorChain(g, cls);
    var at := FirstDeclaredAt(methods, chain, name);
    if at == |chain| {
      forall anc | ProperAncestor(g, cls, anc) ensures DeclaredBy(methods, anc, name) == [] {
        assert anc in chain;
      }
    } else {
      forall other, n: nat
        | ProperAncestor(g, cls, other) && DeclaredBy(methods, other, name) != [] && Within(ArcsOf(g), cls, other, n)
        ensures Within(ArcsOf(g), cls, chain[at], n)
      {
        assert other in chain;
        var j :| 0 <= j < |chain| && chain[j] == other;
        assert at <= j;
      }
      assert chain[at] in chain;
      assert NearestDeclaring(g, methods, cls, name, chain[at]);
    }
  }

  /** The walk takes the next class of a frontier, with `nxt` behind it. */
  lemma FrontierTake(g: Hierarchy, seen: set<string>, frontier: seq<string>, i: nat, nxt: seq<string>)
    requires i < |frontier| && Queueable(g, frontier[i..] + nxt)
    ensures var cid, more := frontier[i], nxt + Successors(g, frontier[i]);
      if cid in seen then
        && Queueable(g, frontier[i + 1..] + nxt)
        && Bfs(g, seen, frontier[i..] + nxt) == Bfs(g, seen, frontier[i + 1..] + nxt)
      else
        && Queueable(g, frontier[i + 1..] + more)
        && Bfs(g, seen, frontier[i..] + nxt) == [cid] + Bfs(g, seen + {cid}, frontier[i + 1..] + more)
  {
    var queue := frontier[i..] + nxt;
    assert queue[0] == frontier[i] && queue[1..] == frontier[i + 1..] + nxt;
    assert queue[1..] + Successors(g, frontier[i]) == frontier[i + 1..] + (nxt + Successors(g, frontier[i]));
    BfsTake(g, seen, queue);
  }

  class AncestorIndex {
    const supers: Hierarchy
    const methods: Slots
    var chainCache: map<string, seq<string>>

    /** Every memoized chain is the one a fresh walk would return. */
    ghost predicate Valid() reads this {
      forall c :: c in chainCache ==> chainCache[c] == AncestorChain(supers, c)
    }

    constructor (supers: Hierarchy, methods: Slots)
      ensures Valid() && this.supers == supers && this.methods == methods
    {
      this.supers, this.methods, chainCache := supers, methods, map[];
    }

    /** The frontier-by-frontier walk visits classes in the order of the single queue. */
    method Walk(classId: string) returns (out: seq<string>)
      ensures out == AncestorChain(supers, classId)
    {
      out := [];
      var seen, frontier := {classId}, Successors(supers, classId);
      while frontier != []
        invariant Queueable(supers, frontier)
        invariant AncestorChain(supers, classId) == out + Bfs(supers, seen, frontier)
        decreases |Bfs(supers, seen, frontier)|, |frontier|
      {
        var visited, seen', nxt := WalkFrontier(seen, frontier);
        out, seen, frontier := out + visited, seen', nxt;
      }
    }

    method WalkFrontier(seen: set<string>, frontier: seq<string>)
      returns (visited: seq<string>, seen': set<string>, nxt: seq<string>)
      requires frontier != [] && Queueable(supers, frontier)
      ensures Queueable(supers, nxt)
      ensures Bfs(supers, seen, frontier) == visited + Bfs(supers, seen', nxt)
      ensures visited == [] ==> nxt == []
    {
      visited, seen', nxt := [], seen, [];
      assert frontier[0..] + nxt == frontier;
      for i := 0 to |frontier|
        invariant Queueable(supers, frontier[i..] + nxt)
        invariant Bfs(supers, seen, frontier) == visited + Bfs(supers, seen', frontier[i..] + nxt)
        invariant visited == [] ==> nxt == []
      {
        var cid := frontier[i];
        FrontierTake(supers, seen', frontier, i, nxt);
        if cid !in seen' {
          seen' := seen' + {cid};
          visited := visited + [cid];
          nxt := nxt + Successors(supers, cid);
        }
      }
      assert frontier[|frontier|..] + nxt == nxt;
    }

    /** The memoized chain. */
    method Chain(cid: string) returns (chain: seq<string>)
      requires Valid()
      modifies this
      ensures Valid() && chain == AncestorChain(supers, cid)
      ensures chainCache.Keys == old(chainCache.Keys) + {cid}
    {
      if cid in chainCache {
        chain := chainCache[cid];
      } else {
        chain := Walk(cid);
        chainCache := chainCache[cid := chain];
      }
    }

    method FirstHit(chain: seq<string>, name: string) returns (found: seq<Node>)
      ensures found == FirstDeclared(methods, chain, name)
    {
      for j := 0 to |chain|
        invariant FirstDeclared(methods, chain, name) == FirstDeclared(methods, chain[j..], name)
      {
        found := DeclaredBy(methods, chain[j], name);
        if found != [] {
          return;
        }
      }
      found := [];
    }

    method InheritedMembers(classIds: seq<string>, name: string) returns (hits: seq<Node>)
      requires Valid()
      modifies this
      ensures Valid()
      ensures hits == Inherited(supers, methods, classIds, name)
    {
      hits := [];
      for i := 0 to |classIds|
        invariant Valid()
        invariant hits == Inherited(supers, methods, classIds[..i], name)
      {
        assert classIds[..i + 1][..i] == classIds[..i];
        var chain := Chain(classIds[i]);
        var found := FirstHit(chain, name);
        hits := hits + found;
      }
      assert classIds[..|classIds|] == classIds;
    }
  }
}
