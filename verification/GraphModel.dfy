/** The code graph's records, with the fields that resolution and derivation read. A node's `tag` is its label. */
module GraphModel {

  datatype Option<+T> = None | Some(value: T) {
    function GetOr(default: T): T {
      if Some? then value else default
    }
  }

  datatype Node = Node(
    id: string, tag: string, name: string, fqn: string, kind: string, lang: string,
    file: string, scope: string, paramCount: int, startLine: int)

  datatype Edge = Edge(
    etype: string, src: string, dst: string, confidence: string, strategy: string,
    evidenceFile: string, evidenceLine: int, evidenceCol: int)

  datatype RawRef = RawRef(
    rtype: string, src: string, targetName: string, kindHint: string, recv: string, recvType: string,
    importFqn: string, httpMethod: string, refFile: string, refLine: int, refCol: int, callArity: int,
    strategyHint: string)

  function IdsOf(nodes: seq<Node>): set<string> { set n | n in nodes :: n.id }

  lemma IdsConcat(a: seq<Node>, b: seq<Node>)
    ensures IdsOf(a + b) == IdsOf(a) + IdsOf(b)
  {
    assert forall n :: n in a + b <==> n in a || n in b;
  }

  /** The entries of `xs` that satisfy `p`, in order. */
  function Select<T(!new)>(xs: seq<T>, p: T -> bool): (ys: seq<T>)
    ensures forall y :: y in ys <==> y in xs && p(y)
  {
    if xs == [] then []
    else (if p(xs[0]) then [xs[0]] else []) + Select(xs[1..], p)
  }

  lemma {:induction false} SelectConcat<T(!new)>(xs: seq<T>, ys: seq<T>, p: T -> bool)
    ensures Select(xs + ys, p) == Select(xs, p) + Select(ys, p)
  {
    if xs == [] {
      assert xs + ys == ys;
    } else {
      assert (xs + ys)[1..] == xs[1..] + ys;
      SelectConcat(xs[1..], ys, p);
    }
  }

  lemma {:induction false} SelectAgree<T(!new)>(xs: seq<T>, p: T -> bool, q: T -> bool)
    requires forall x :: x in xs ==> p(x) == q(x)
    ensures Select(xs, p) == Select(xs, q)
  {
    if xs != [] {
      SelectAgree(xs[1..], p, q);
    }
  }

  lemma {:induction false} SelectNone<T(!new)>(xs: seq<T>, p: T -> bool)
    ensures (forall x :: x in xs ==> !p(x)) ==> Select(xs, p) == []
  {
    if xs != [] { SelectNone(xs[1..], p); }
  }

  /** Filtering twice is filtering once by both. */
  lemma {:induction false} SelectTwice<T(!new)>(xs: seq<T>, p: T -> bool, q: T -> bool, both: T -> bool)
    requires forall x :: x in xs ==> (both(x) <==> p(x) && q(x))
    ensures Select(Select(xs, p), q) == Select(xs, both)
  {
    if xs != [] {
      SelectTwice(xs[1..], p, q, both);
      var head := if p(xs[0]) then [xs[0]] else [];
      assert Select(xs, p) == head + Select(xs[1..], p);
      SelectConcat(head, Select(xs[1..], p), q);
    }
  }

  function Flatten<T>(xss: seq<seq<T>>): seq<T> {
    if xss == [] then [] else xss[0] + Flatten(xss[1..])
  }

  lemma {:induction false} FlattenConcat<T>(xss: seq<seq<T>>, yss: seq<seq<T>>)
    ensures Flatten(xss + yss) == Flatten(xss) + Flatten(yss)
  {
    if xss == [] {
      assert xss + yss == yss;
    } else {
      assert (xss + yss)[1..] == xss[1..] + yss;
      FlattenConcat(xss[1..], yss);
    }
  }
}
