/** The walk up CONTAINS to the enclosing class. */
module Containment {
  import opened GraphModel
  import opened LookupIndices

  datatype Enclosure = InsideClass(id: string) | Outside | Endless

  /** Where the loop's cursor stands after `n` moves up from the container of `id`. */
  function Cursor(sc: Scopes, id: string, n: nat): Option<string> {
    if n == 0 then ParentOf(sc.parents, id)
    else match Cursor(sc, id, n - 1)
      case Some(cur) => ParentOf(sc.parents, cur)
      case None => None
  }

  /** The cursor stands on a known node that is no class, so the loop goes on. */
  predicate MovesOn(sc: Scopes, cur: Option<string>) {
    cur.Some? && cur.value in sc.byId && sc.byId[cur.value].tag != "Class"
  }

  ghost predicate RunsFor(sc: Scopes, id: string, n: nat) {
    forall k: nat :: k < n ==> MovesOn(sc, Cursor(sc, id, k))
  }

  /** The loop, with the nodes already passed kept so that a repetition shows. */
  function EncloseFrom(sc: Scopes, cur: Option<string>, passed: set<string>): Enclosure
    decreases |sc.byId.Keys - passed|
  {
    if cur.None? || cur.value !in sc.byId then Outside
    else if sc.byId[cur.value].tag == "Class" then InsideClass(cur.value)
    else if cur.value in passed then Endless
    else
      assert sc.byId.Keys - passed == (sc.byId.Keys - (passed + {cur.value})) + {cur.value};
      EncloseFrom(sc, ParentOf(sc.parents, cur.value), passed + {cur.value})
  }

  function Enclose(sc: Scopes, id: string): Enclosure {
    EncloseFrom(sc, ParentOf(sc.parents, id), {})
  }

  /** The enclosing class the callers use; on a containment cycle without a class the loop never answers. */
  function EnclosingClass(sc: Scopes, id: string): Option<string> {
    match Enclose(sc, id)
    case InsideClass(c) => Some(c)
    case _ => None
  }

  /** A cursor that comes back to an earlier place goes round for ever. */
  lemma {:induction false} GoesRound(sc: Scopes, id: string, j: nat, k: nat, n: nat)
    requires j < k && RunsFor(sc, id, k) && Cursor(sc, id, j) == Cursor(sc, id, k)
    ensures RunsFor(sc, id, n)
    decreases n
  {
    if n > k {
      GoesRound(sc, id, j, k, n - 1);
      Periodic(sc, id, j, k, n - 1 - k);
    }
  }

  lemma {:induction false} Periodic(sc: Scopes, id: string, j: nat, k: nat, m: nat)
    requires Cursor(sc, id, j) == Cursor(sc, id, k)
    ensures Cursor(sc, id, j + m) == Cursor(sc, id, k + m)
  {
    if m > 0 { Periodic(sc, id, j, k, m - 1); }
  }

  /** The nodes passed in the first `n` moves. */
  ghost function Trail(sc: Scopes, id: string, n: nat): set<string> {
    if n == 0 then {}
    else Trail(sc, id, n - 1) + match Cursor(sc, id, n - 1) case Some(cur) => {cur} case None => {}
  }

  lemma {:induction false} TrailVisits(sc: Scopes, id: string, n: nat, p: string) returns (k: nat)
    requires p in Trail(sc, id, n)
    ensures k < n && Cursor(sc, id, k) == Some(p)
  {
    if Cursor(sc, id, n - 1) == Some(p) { k := n - 1; } else { k := TrailVisits(sc, id, n - 1, p); }
  }

  lemma {:induction false} EncloseFollowsCursor(sc: Scopes, id: string, n: nat) returns (stop: nat)
    requires RunsFor(sc, id, n)
    ensures match EncloseFrom(sc, Cursor(sc, id, n), Trail(sc, id, n))
      case InsideClass(c) => RunsFor(sc, id, stop) && Cursor(sc, id, stop) == Some(c) && c in sc.byId
        && sc.byId[c].tag == "Class"
      case Outside => RunsFor(sc, id, stop) && (Cursor(sc, id, stop).None? || Cursor(sc, id, stop).value !in sc.byId)
      case Endless => forall m: nat :: RunsFor(sc, id, m)
    decreases |sc.byId.Keys - Trail(sc, id, n)|
  {
    var cur, passed := Cursor(sc, id, n), Trail(sc, id, n);
    stop := n;
    if MovesOn(sc, cur) {
      if cur.value in passed {
        var j := TrailVisits(sc, id, n, cur.value);
        forall m: nat ensures RunsFor(sc, id, m) {
          GoesRound(sc, id, j, n, m);
        }
      } else {
        assert sc.byId.Keys - passed == (sc.byId.Keys - (passed + {cur.value})) + {cur.value};
        assert Trail(sc, id, n + 1) == passed + {cur.value};
        stop := EncloseFollowsCursor(sc, id, n + 1);
      }
    }
  }

  /** The answer is the nearest enclosing class, and the loop runs for ever exactly on a cycle of nodes that are no
      classes. */
  lemma EncloseIsNearestClass(sc: Scopes, id: string)
    ensures Enclose(sc, id) == Endless <==> forall n: nat :: RunsFor(sc, id, n)
    ensures forall c :: EnclosingClass(sc, id) == Some(c) <==>
      exists n: nat :: RunsFor(sc, id, n) && Cursor(sc, id, n) == Some(c) && c in sc.byId && sc.byId[c].tag == "Class"
  {
    var stop := EncloseFollowsCursor(sc, id, 0);
    forall c, n: nat | RunsFor(sc, id, n) && Cursor(sc, id, n) == Some(c) && c in sc.byId && sc.byId[c].tag == "Class"
      ensures EnclosingClass(sc, id) == Some(c)
    {
      assert !RunsFor(sc, id, n + 1);
    }
    if Enclose(sc, id) != Endless {
      assert !MovesOn(sc, Cursor(sc, id, stop));
      assert !RunsFor(sc, id, stop + 1);
    }
  }

  /** A function that a CONTAINS edge puts inside itself: the search for its class does not end. */
  lemma SelfContainedIsEndless(f: Node, e: Edge) returns (nodes: seq<Node>, edges: seq<Edge>)
    requires f.tag == "Function" && e.etype == "CONTAINS" && e.src == e.dst == f.id
    ensures nodes == [f] && edges == [e]
    ensures Enclose(Scopes(Containers(edges), ById(nodes)), f.id) == Endless
  {
    nodes, edges := [f], [e];
    assert nodes[..|nodes| - 1] == [] && edges[..|edges| - 1] == [];
    assert ById(nodes) == ById([])[f.id := f] && Containers(edges) == Containers([])[f.id := f.id];
    var sc := Scopes(Containers(edges), ById(nodes));
    assert EncloseFrom(sc, Some(f.id), {} + {f.id}) == Endless;
  }
}
