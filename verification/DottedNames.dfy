/** Dotted names: the tail of a name, and the segment test that import narrowing uses. */
module DottedNames {
  import opened GraphModel

  function LastDot(name: string): (at: int)
    ensures -1 <= at < |name|
    ensures at >= 0 ==> name[at] == '.'
    ensures forall i :: at < i < |name| ==> name[i] != '.'
  {
    if name == "" then -1
    else if name[|name| - 1] == '.' then |name| - 1
    else LastDot(name[..|name| - 1])
  }

  /** `tail` is what stands behind the last dot of the name, or the whole of a name without a dot. */
  ghost predicate IsTail(name: string, tail: string) {
    '.' !in tail && (name == tail || (|tail| < |name| && name[|name| - |tail| - 1..] == "." + tail))
  }

  function TailName(name: string): (tail: string)
    ensures IsTail(name, tail)
  {
    name[LastDot(name) + 1..]
  }

  /** A name has one tail. */
  lemma TailIff(name: string, tail: string)
    ensures TailName(name) == tail <==> IsTail(name, tail)
  {
    if IsTail(name, tail) { OneTail(name, tail, TailName(name)); }
  }

  lemma OneTail(name: string, a: string, b: string)
    requires IsTail(name, a) && IsTail(name, b)
    ensures a == b
  {
    EndsAt(name, a);
    EndsAt(name, b);
    if |a| < |b| { LongerHasDot(name, a, b); }
    if |b| < |a| { LongerHasDot(name, b, a); }
  }

  lemma EndsAt(name: string, tail: string)
    requires IsTail(name, tail)
    ensures |tail| <= |name| && tail == name[|name| - |tail|..]
  {
    if name != tail {
      assert name[|name| - |tail|..] == name[|name| - |tail| - 1..][1..] == ("." + tail)[1..];
    }
  }

  lemma LongerHasDot(name: string, tail: string, end: string)
    requires IsTail(name, tail) && |tail| < |end| <= |name| && end == name[|name| - |end|..]
    ensures '.' in end
  {
    var dot := |name| - |tail| - 1;
    assert name[dot] == name[dot..][0] == '.';
    assert end[|end| - |tail| - 1] == name[dot];
  }

  function FirstDot(s: string): (at: nat)
    ensures at <= |s| && '.' !in s[..at]
    ensures at < |s| ==> s[at] == '.'
  {
    if s == "" || s[0] == '.' then 0 else
      assert s[..1 + FirstDot(s[1..])] == [s[0]] + s[1..][..FirstDot(s[1..])];
      1 + FirstDot(s[1..])
  }

  function Split(s: string): (parts: seq<string>)
    ensures parts != []
    decreases |s|
  {
    var k := FirstDot(s);
    if k == |s| then [s] else [s[..k]] + Split(s[k + 1..])
  }

  /** The segments of a name that some dot precedes. */
  function InnerSegments(fqn: string): set<string> {
    set part | part in Split(fqn)[1..]
  }

  /** `.tail.` occurs in the name at `i`, or `.tail` ends it there. */
  ghost predicate DottedAt(fqn: string, tail: string, i: int) {
    0 <= i < |fqn| && ("." + tail + "." <= fqn[i..] || fqn[i..] == "." + tail)
  }

  ghost predicate Dotted(fqn: string, tail: string) {
    exists i :: DottedAt(fqn, tail, i)
  }

  lemma DottedAtDot(fqn: string, tail: string, i: int)
    requires DottedAt(fqn, tail, i)
    ensures fqn[i] == '.'
  {
    assert fqn[i] == fqn[i..][0];
    assert ("." + tail + ".")[0] == '.';
  }

  lemma DottedShift(fqn: string, tail: string, k: nat, i: nat)
    requires k + i <= |fqn|
    ensures DottedAt(fqn[k..], tail, i) <==> DottedAt(fqn, tail, k + i)
  {
    assert fqn[k..][i..] == fqn[k + i..];
  }

  lemma HeadSegment(s: string, tail: string, k: nat)
    requires k < |s| && s[k] == '.' && '.' !in tail
    ensures DottedAt(s, tail, k) <==> tail == Split(s[k + 1..])[0]
  {
    var rest := s[k + 1..];
    var d := FirstDot(rest);
    assert s[k..] == "." + rest && Split(rest)[0] == rest[..d];
    if DottedAt(s, tail, k) {
      if s[k..] == "." + tail {
        assert rest == s[k..][1..] == tail;
        assert d == |rest| && rest[..d] == rest;
      } else {
        assert tail + "." == ("." + tail + ".")[1..];
        assert tail + "." <= rest;
        assert rest[|tail|] == '.' && rest[..|tail|] == tail;
      }
    }
  }

  /** The set-intersection form tests what the substring form says, for every tail without a dot. */
  lemma {:induction false} SegmentIsDotted(fqn: string, tail: string)
    requires '.' !in tail
    ensures tail in InnerSegments(fqn) <==> Dotted(fqn, tail)
    decreases |fqn|
  {
    var k := FirstDot(fqn);
    if k == |fqn| {
      forall i | DottedAt(fqn, tail, i) ensures false {
        DottedAtDot(fqn, tail, i);
      }
    } else {
      var rest := fqn[k + 1..];
      SegmentIsDotted(rest, tail);
      HeadSegment(fqn, tail, k);
      assert Split(fqn)[1..] == Split(rest) == [Split(rest)[0]] + Split(rest)[1..];
      if Dotted(fqn, tail) {
        var i :| DottedAt(fqn, tail, i);
        DottedAtDot(fqn, tail, i);
        if i > k { DottedShift(fqn, tail, k + 1, i - k - 1); }
      }
      if Dotted(rest, tail) {
        var i :| DottedAt(rest, tail, i);
        DottedShift(fqn, tail, k + 1, i);
      }
    }
  }

  function SharesSegment(tails: set<string>): Node -> bool {
    (n: Node) => InnerSegments(n.fqn) * tails != {}
  }

  function QualifiedHits(candidates: seq<Node>, tails: set<string>): seq<Node> {
    if tails == {} then [] else Select(candidates, SharesSegment(tails))
  }

  /** A candidate is hit exactly when its name carries some imported tail behind a dot. */
  lemma QualifiedHitsAreDotted(candidates: seq<Node>, tails: set<string>)
    requires forall t :: t in tails ==> '.' !in t
    ensures forall n :: n in QualifiedHits(candidates, tails)
                   <==> n in candidates && exists t :: t in tails && Dotted(n.fqn, t)
  {
    forall n | n in candidates
      ensures SharesSegment(tails)(n) <==> exists t :: t in tails && Dotted(n.fqn, t)
    {
      forall t | t in tails ensures t in InnerSegments(n.fqn) <==> Dotted(n.fqn, t) {
        SegmentIsDotted(n.fqn, t);
      }
      if SharesSegment(tails)(n) {
        var t :| t in InnerSegments(n.fqn) * tails;
      }
      if t :| t in tails && Dotted(n.fqn, t) {
        assert t in InnerSegments(n.fqn) * tails;
      }
    }
  }

  /** Memoized by node id; nodes that share an id share their name. */
  class SegmentMemo {
    var segments: map<string, set<string>>

    constructor ()
      ensures segments == map[]
    {
      segments := map[];
    }

    ghost predicate Remembers(named: map<string, string>) reads this {
      forall id :: id in segments ==> id in named && segments[id] == InnerSegments(named[id])
    }

    method Recall(c: Node, ghost named: map<string, string>) returns (own: set<string>)
      requires Remembers(named) && c.id in named && named[c.id] == c.fqn
      modifies this
      ensures Remembers(named) && own == InnerSegments(c.fqn)
    {
      if c.id !in segments {
        segments := segments[c.id := InnerSegments(c.fqn)];
      }
      own := segments[c.id];
    }

    method Hits(candidates: seq<Node>, tails: set<string>, ghost named: map<string, string>) returns (hits: seq<Node>)
      requires Remembers(named)
      requires forall n :: n in candidates ==> n.id in named && named[n.id] == n.fqn
      modifies this
      ensures Remembers(named)
      ensures hits == QualifiedHits(candidates, tails)
    {
      hits := [];
      if tails == {} {
        return;
      }
      for i := 0 to |candidates|
        invariant Remembers(named)
        invariant hits == Select(candidates[..i], SharesSegment(tails))
      {
        var c := candidates[i];
        assert candidates[..i + 1] == candidates[..i] + [c];
        SelectConcat(candidates[..i], [c], SharesSegment(tails));
        var own := Recall(c, named);
        if own * tails != {} {
          hits := hits + [c];
        }
      }
      assert candidates[..|candidates|] == candidates;
    }
  }
}
