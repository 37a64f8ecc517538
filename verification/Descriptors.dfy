/** Splitting a method descriptor's parameters, and turning operand-stack offsets into parameter positions. */
module Descriptors {
  import opened GraphModel

  datatype Parsed = Ok(params: seq<string>) | Malformed

  predicate IsPrimitive(c: char) { c in "BCDFIJSZ" }

  predicate IsObject(p: string) {
    |p| >= 3 && p[0] == 'L' && p[|p| - 1] == ';' && ';' !in p[1..|p| - 1]
  }

  /** One parameter: brackets, then a primitive letter or a class name between `L` and `;`. */
  predicate IsParam(p: string) {
    p != "" && if p[0] == '[' then IsParam(p[1..]) else IsObject(p) || (|p| == 1 && IsPrimitive(p[0]))
  }

  ghost predicate Splits(desc: string, ps: seq<string>) {
    (forall i :: 0 <= i < |ps| ==> IsParam(ps[i])) && Flatten(ps) == desc
  }

  function SkipBrackets(s: string, i: nat): (j: nat)
    requires i <= |s|
    ensures i <= j <= |s|
    decreases |s| - i
  {
    if i < |s| && s[i] == '[' then SkipBrackets(s, i + 1) else i
  }

  function FindSemicolon(s: string, i: nat): (j: nat)
    requires i <= |s|
    ensures i <= j <= |s| && ';' !in s[i..j] && (j < |s| ==> s[j] == ';')
    decreases |s| - i
  {
    if i == |s| || s[i] == ';' then i
    else
      var j := FindSemicolon(s, i + 1);
      assert s[i..j] == [s[i]] + s[i + 1..j];
      j
  }

  /** Where the pattern for one parameter ends when it matches at `i`. */
  function MatchEnd(s: string, i: nat): Option<nat>
    requires i <= |s|
  {
    var b := SkipBrackets(s, i);
    if b == |s| then None
    else if IsPrimitive(s[b]) then Some(b + 1)
    else if s[b] == 'L' then
      var e := FindSemicolon(s, b + 1);
      if b + 1 < e < |s| then Some(e + 1) else None
    else None
  }

  lemma {:induction false} MatchIsParam(s: string, i: nat)
    requires i <= |s| && MatchEnd(s, i).Some?
    ensures i < MatchEnd(s, i).value <= |s| && IsParam(s[i..MatchEnd(s, i).value])
    decreases |s| - i
  {
    var e := MatchEnd(s, i).value;
    if s[i] == '[' {
      MatchIsParam(s, i + 1);
      assert s[i..e][1..] == s[i + 1..e];
    } else if s[i] == 'L' {
      ObjectAt(s, i, e);
    }
  }

  lemma ObjectAt(s: string, i: nat, e: nat)
    requires i + 2 < e <= |s| && s[i] == 'L' && s[e - 1] == ';' && ';' !in s[i + 1..e - 1]
    ensures IsObject(s[i..e])
  {
    var p := s[i..e];
    forall j | 1 <= j < |p| - 1 ensures p[j] != ';' {
      assert p[j] == s[i + j] == s[i + 1..e - 1][j - 1];
    }
  }

  lemma {:induction false} ParamIsMatched(s: string, i: nat, p: string)
    requires IsParam(p) && i + |p| <= |s| && s[i..i + |p|] == p
    ensures MatchEnd(s, i) == Some(i + |p|)
    decreases |p|
  {
    assert s[i] == p[0];
    if p[0] == '[' {
      assert s[i + 1..i + 1 + |p[1..]|] == p[1..];
      ParamIsMatched(s, i + 1, p[1..]);
    } else if p[0] == 'L' {
      var last := i + |p| - 1;
      assert s[last] == p[|p| - 1] == ';';
      forall j | i + 1 <= j < last ensures s[j] != ';' {
        assert s[j] == p[j - i] == p[1..|p| - 1][j - i - 1];
      }
      FindsFirst(s, i + 1, last);
    }
  }

  lemma {:induction false} FindsFirst(s: string, i: nat, last: nat)
    requires i <= last < |s| && s[last] == ';' && ';' !in s[i..last]
    ensures FindSemicolon(s, i) == last
    decreases last - i
  {
    if i < last {
      assert s[i..last] == [s[i]] + s[i + 1..last];
      FindsFirst(s, i + 1, last);
    }
  }

  /** Parameter lists that start the same text start with the same parameters. */
  lemma {:induction false} PrefixForced(out: seq<string>, ps: seq<string>, desc: string)
    requires forall i :: 0 <= i < |out| ==> IsParam(out[i])
    requires Splits(desc, ps) && |Flatten(out)| <= |desc| && desc[..|Flatten(out)|] == Flatten(out)
    ensures |out| <= |ps| && ps[..|out|] == out
    decreases |out|
  {
    if out != [] {
      assert desc[0..|out[0]|] == out[0] by { assert Flatten(out)[..|out[0]|] == out[0]; }
      ParamIsMatched(desc, 0, out[0]);
      assert ps == [] ==> |desc| == 0;
      assert desc[0..|ps[0]|] == ps[0];
      ParamIsMatched(desc, 0, ps[0]);
      assert ps[0] == out[0];
      var n := |out[0]|;
      assert desc[n..] == Flatten(ps[1..]);
      assert desc[n..][..|Flatten(out[1..])|] == Flatten(out[1..]) by {
        assert Flatten(out)[n..] == Flatten(out[1..]);
      }
      PrefixForced(out[1..], ps[1..], desc[n..]);
      assert ps[..|out|] == [ps[0]] + ps[1..][..|out[1..]|];
    }
  }

  /** A descriptor splits in at most one way. */
  lemma SplitIsUnique(desc: string, a: seq<string>, b: seq<string>)
    requires Splits(desc, a) && Splits(desc, b)
    ensures a == b
  {
    assert desc[..|desc|] == desc;
    PrefixForced(a, b, desc);
    PrefixForced(b, a, desc);
    assert b[..|a|] == a && |a| == |b|;
  }

  lemma NoSplit(desc: string, out: seq<string>, i: nat)
    requires i < |desc| && MatchEnd(desc, i).None?
    requires (forall k :: 0 <= k < |out| ==> IsParam(out[k])) && Flatten(out) == desc[..i]
    ensures !exists ps :: Splits(desc, ps)
  {
    if ps :| Splits(desc, ps) {
      PrefixForced(out, ps, desc);
      var rest := ps[|out|..];
      assert ps == out + rest;
      FlattenConcat(out, rest);
      if rest != [] {
        var p := rest[0];
        assert desc == desc[..i] + (p + Flatten(rest[1..]));
        assert desc[i..i + |p|] == p;
        ParamIsMatched(desc, i, p);
      }
    }
  }

  /** The parse answers a list of parameters exactly when the text is their concatenation, and refuses every other
      text. */
  method ParseParams(desc: string) returns (r: Parsed)
    ensures forall ps :: r == Ok(ps) <==> Splits(desc, ps)
  {
    var out: seq<string>, i := [], 0;
    while i < |desc|
      invariant i <= |desc| && Flatten(out) == desc[..i]
      invariant forall k :: 0 <= k < |out| ==> IsParam(out[k])
      decreases |desc| - i
    {
      var m := MatchEnd(desc, i);
      if m.None? {
        NoSplit(desc, out, i);
        return Malformed;
      }
      MatchIsParam(desc, i);
      var p := desc[i..m.value];
      FlattenConcat(out, [p]);
      assert Flatten([p]) == p;
      assert desc[..m.value] == desc[..i] + p;
      out, i := out + [p], m.value;
    }
    assert desc[..i] == desc;
    r := Ok(out);
    forall ps | Splits(desc, ps) ensures ps == out { SplitIsUnique(desc, ps, out); }
  }

  /** A binary class name: nonempty segments between slashes, free of `.`, `;` and `[`. */
  predicate IsBinaryName(s: string) {
    && s != "" && '.' !in s && ';' !in s && '[' !in s
    && s[0] != '/' && s[|s| - 1] != '/' && forall i :: 0 <= i < |s| - 1 ==> !(s[i] == '/' && s[i + 1] == '/')
  }

  /** The base types, by table 4.3-A of the Java Virtual Machine Specification. */
  ghost function BaseType(p: string): Option<string> {
    match p
    case "B" => Some("byte")
    case "C" => Some("char")
    case "D" => Some("double")
    case "F" => Some("float")
    case "I" => Some("int")
    case "J" => Some("long")
    case "S" => Some("short")
    case "Z" => Some("boolean")
    case _ => None
  }

  ghost predicate NamesClass(p: string) { exists name :: IsBinaryName(name) && p == "L" + name + ";" }

  ghost predicate FollowsGrammar(p: string) {
    p != "" && if p[0] == '[' then FollowsGrammar(p[1..]) else NamesClass(p) || BaseType(p).Some?
  }

  lemma ObjectIffClass(p: string)
    ensures NamesClass(p) <==> IsObject(p) && IsBinaryName(p[1..|p| - 1])
  {
    if name :| IsBinaryName(name) && p == "L" + name + ";" {
      assert p[1..|p| - 1] == name;
    }
    if IsObject(p) && IsBinaryName(p[1..|p| - 1]) {
      assert p == "L" + p[1..|p| - 1] + ";";
    }
  }

  lemma BaseIffPrimitive(p: string)
    ensures BaseType(p).Some? <==> |p| == 1 && IsPrimitive(p[0])
  {
    if |p| == 1 { assert p == [p[0]]; }
  }

  function Dimensions(p: string): nat { if p != "" && p[0] == '[' then 1 + Dimensions(p[1..]) else 0 }

  /** A field descriptor by sections 4.2.1 and 4.3.2 of the Java Virtual Machine Specification, at most 255 dimensions
      included. */
  ghost predicate IsFieldDescriptor(p: string) { FollowsGrammar(p) && Dimensions(p) <= 255 }

  /** Every field descriptor is a parameter here; the converse fails where a text is taken for a class name. */
  lemma {:induction false} DescriptorsAreParams(p: string)
    requires FollowsGrammar(p)
    ensures IsParam(p)
    decreases |p|
  {
    ObjectIffClass(p);
    BaseIffPrimitive(p);
    if p[0] == '[' { DescriptorsAreParams(p[1..]); }
  }

  /** The element type: what is left when the brackets are gone. */
  function Core(p: string): string { if p != "" && p[0] == '[' then Core(p[1..]) else p }

  /** The class named, if the element type is a class. */
  function ClassNamed(p: string): Option<string> {
    var c := Core(p); if IsObject(c) then Some(c[1..|c| - 1]) else None
  }

  lemma {:induction false} GrammarIffNamed(p: string)
    requires IsParam(p)
    ensures FollowsGrammar(p) <==> (ClassNamed(p).Some? ==> IsBinaryName(ClassNamed(p).value))
    decreases |p|
  {
    ObjectIffClass(p);
    BaseIffPrimitive(p);
    if p[0] == '[' { GrammarIffNamed(p[1..]); }
  }

  /** The text taken for a class name is one, and there are not too many brackets. */
  predicate WithinSpecification(p: string) {
    (ClassNamed(p).Some? ==> IsBinaryName(ClassNamed(p).value)) && Dimensions(p) <= 255
  }

  /** A descriptor's parameter list, by the specification. */
  ghost predicate IsDescriptorList(desc: string) {
    exists ps :: Flatten(ps) == desc && forall i :: 0 <= i < |ps| ==> IsFieldDescriptor(ps[i])
  }

  /** Of the texts the parser accepts, exactly those are lists of field descriptors whose parameters all keep the two
      rules it leaves out. */
  lemma AcceptedIffWithin(desc: string, ps: seq<string>)
    requires Splits(desc, ps)
    ensures IsDescriptorList(desc) <==>
      forall i :: 0 <= i < |ps| ==> WithinSpecification(ps[i])
  {
    forall i | 0 <= i < |ps| ensures IsFieldDescriptor(ps[i]) <==> WithinSpecification(ps[i]) {
      GrammarIffNamed(ps[i]);
    }
    if IsDescriptorList(desc) {
      var qs :| Flatten(qs) == desc && forall i :: 0 <= i < |qs| ==> IsFieldDescriptor(qs[i]);
      forall i | 0 <= i < |qs| ensures IsParam(qs[i]) { DescriptorsAreParams(qs[i]); }
      SplitIsUnique(desc, ps, qs);
    }
  }

  /** So some accepted text is no field descriptor. */
  lemma LaxName()
    ensures IsParam("L[;") && !IsFieldDescriptor("L[;")
  {
    var p := "L[;";
    assert p[1..2] == "[";
    assert IsObject(p) && Core(p) == p;
    GrammarIffNamed(p);
  }

  const RECEIVER: int := -2

  predicate IsTwoSlot(param: string) { param == "J" || param == "D" }

  function Width(param: string): nat { if IsTwoSlot(param) then 2 else 1 }

  /** Slots of the first `k` parameters. */
  function Slots(params: seq<string>, k: nat): nat
    requires k <= |params|
  {
    if k == 0 then 0 else Slots(params, k - 1) + Width(params[k - 1])
  }

  function Total(params: seq<string>): nat { Slots(params, |params|) }

  /** Parameter `k` covers the offset, counted from the top of the stack. */
  predicate Covers(params: seq<string>, k: int, off: int) {
    0 <= k < |params| && Total(params) - Slots(params, k + 1) <= off < Total(params) - Slots(params, k)
  }

  /**
    * The operand stack at an instance call, bottom first: the receiver, then each parameter in one slot or two
    * (section 2.6.2 of the Java Virtual Machine Specification).
    */
  ghost function OperandStack(params: seq<string>, k: nat): (st: seq<int>)
    requires k <= |params|
    ensures |st| == 1 + Slots(params, k)
  {
    if k == 0 then [RECEIVER]
    else
      WidthIsSlots(params[k - 1]);
      OperandStack(params, k - 1) + seq(SlotsTaken(params[k - 1]), _ => k - 1)
  }

  /** A long or a double takes two slots, any other value one. */
  ghost function SlotsTaken(param: string): nat {
    if BaseType(param) == Some("long") || BaseType(param) == Some("double") then 2 else 1
  }

  lemma WidthIsSlots(param: string)
    ensures Width(param) == SlotsTaken(param)
  {
  }

  /** What lies at an offset from the top. */
  ghost function FromTop(params: seq<string>, off: nat): int
    requires off <= Total(params)
  {
    OperandStack(params, |params|)[Total(params) - off]
  }

  lemma {:induction false} StackBelow(params: seq<string>, k: nat, n: nat, at: nat)
    requires k <= n <= |params| && at <= Slots(params, k)
    ensures Slots(params, k) <= Slots(params, n) && OperandStack(params, n)[at] == OperandStack(params, k)[at]
    decreases n
  {
    if k < n { StackBelow(params, k, n - 1, at); }
  }

  /** An offset belongs to a parameter exactly when that parameter lies there on the stack. */
  lemma CoversIsStack(params: seq<string>, k: int, off: nat)
    requires off <= Total(params)
    ensures Covers(params, k, off) <==> 0 <= k < |params| && FromTop(params, off) == k
    ensures off == Total(params) <==> FromTop(params, off) == RECEIVER
  {
    var at := Total(params) - off;
    if 0 <= k < |params| && Slots(params, k) < at <= Slots(params, k + 1) {
      StackBelow(params, k + 1, |params|, at);
    }
    if at > 0 {
      var j := OwnerOf(params, |params|, at);
      StackBelow(params, j + 1, |params|, at);
      if 0 <= k < |params| && FromTop(params, off) == k { assert j == k; }
    } else {
      StackBelow(params, 0, |params|, 0);
      if 0 <= k < |params| { StackBelow(params, k, |params|, 0); }
    }
  }

  lemma {:induction false} OwnerOf(params: seq<string>, n: nat, at: nat) returns (j: nat)
    requires n <= |params| && at <= Slots(params, n)
    ensures 0 < at ==> j < n && Slots(params, j) < at <= Slots(params, j + 1)
    decreases n
  {
    j := 0;
    if 0 < at {
      if Slots(params, n - 1) < at { j := n - 1; } else { j := OwnerOf(params, n - 1, at); }
    }
  }

  /** Every offset below the total has exactly one owner. */
  lemma OneOwner(params: seq<string>, off: nat)
    requires off < Total(params)
    ensures exists k :: Covers(params, k, off)
    ensures forall j, k :: Covers(params, j, off) && Covers(params, k, off) ==> j == k
  {
    var j := OwnerOf(params, |params|, Total(params) - off);
    assert Covers(params, j, off);
    forall i, k | Covers(params, i, off) && Covers(params, k, off) ensures i == k {
      CoversIsStack(params, i, off);
      CoversIsStack(params, k, off);
    }
  }

  /** The offset map, filled parameter by parameter. */
  method SlotMap(params: seq<string>) returns (m: map<int, int>)
    ensures forall off :: off in m <==> 0 <= off < Total(params)
    ensures forall off :: off in m ==> Covers(params, m[off], off)
  {
    m := map[];
    var running := 0;
    for k := 0 to |params|
      invariant running == Slots(params, k)
      invariant forall off :: off in m <==> Total(params) - running <= off < Total(params)
      invariant forall off :: off in m ==> Covers(params, m[off], off)
    {
      var w := Width(params[k]);
      SlotsGrow(params, k, |params|);
      SlotsGrow(params, k + 1, |params|);
      var start := Total(params) - running - w;
      for off := start to Total(params) - running
        invariant forall o :: o in m <==> start <= o < off || Total(params) - running <= o < Total(params)
        invariant forall o :: o in m ==> Covers(params, m[o], o)
      {
        m := m[off := k];
      }
      running := running + w;
    }
  }

  lemma {:induction false} SlotsGrow(params: seq<string>, k: nat, n: nat)
    requires k <= n <= |params|
    ensures Slots(params, k) <= Slots(params, n)
    decreases n
  {
    if k < n { SlotsGrow(params, k, n - 1); }
  }

  predicate Increasing(xs: seq<int>) { forall i, j :: 0 <= i < j < |xs| ==> xs[i] < xs[j] }

  /** The set in ascending order. */
  method Sorted(s: set<int>) returns (xs: seq<int>)
    ensures Increasing(xs) && forall x :: x in xs <==> x in s
  {
    xs := [];
    var rest := s;
    while rest != {}
      invariant rest <= s && forall x :: x in xs <==> x in s && x !in rest
      invariant Increasing(xs) && forall x, y :: x in xs && y in rest ==> x < y
      decreases rest
    {
      var least := Least(rest);
      assert forall k :: 0 <= k < |xs| ==> xs[k] in xs;
      xs := xs + [least];
      rest := rest - {least};
    }
  }

  lemma NonEmpty(s: set<int>)
    requires s != {}
    ensures exists x :: x in s
  {
    assert (forall x :: x !in s) ==> s == {};
  }

  method Least(s: set<int>) returns (x: int)
    requires s != {}
    ensures x in s && forall y :: y in s ==> x <= y
  {
    assert exists z :: z in s by { NonEmpty(s); }
    x :| x in s;
    var rest := s - {x};
    while rest != {}
      invariant rest <= s && x in s && forall y :: y in s && y !in rest ==> x <= y
      decreases rest
    {
      NonEmpty(rest);
      var y :| y in rest;
      if y < x { x := y; }
      rest := rest - {y};
    }
  }

  /** Some upstream offset names what lies at that place on the stack. */
  ghost predicate Named(params: seq<string>, upstream: seq<int>, x: int) {
    exists i :: i in upstream && 0 <= i <= Total(params) && FromTop(params, i) == x
  }

  /** Positions, receiver first, each once: exactly what the offsets name on the operand stack. */
  method ToPositions(upstream: seq<int>, params: seq<string>) returns (positions: seq<int>)
    ensures Increasing(positions) && forall x :: x in positions <==> Named(params, upstream, x)
  {
    var m := SlotMap(params);
    var pos: set<int> := {};
    for n := 0 to |upstream|
      invariant forall x :: x in pos <==> Named(params, upstream[..n], x)
    {
      var i := upstream[n];
      ghost var before := pos;
      if i in m {
        pos := pos + {m[i]};
        CoversIsStack(params, m[i], i);
      } else if i == Total(params) {
        pos := pos + {RECEIVER};
        CoversIsStack(params, 0, i);
      }
      NamedNext(params, upstream[..n], i);
      assert upstream[..n + 1] == upstream[..n] + [i];
    }
    assert upstream[..|upstream|] == upstream;
    positions := Sorted(pos);
  }

  lemma NamedNext(params: seq<string>, upstream: seq<int>, i: int)
    ensures forall x :: Named(params, upstream + [i], x) <==>
      Named(params, upstream, x) || (0 <= i <= Total(params) && FromTop(params, i) == x)
  {
    forall x | Named(params, upstream, x) ensures Named(params, upstream + [i], x) {
      var j :| j in upstream && 0 <= j <= Total(params) && FromTop(params, j) == x;
      assert j in upstream + [i];
    }
    if 0 <= i <= Total(params) { assert i in upstream + [i]; }
  }

  /** The offsets of one parameter name that parameter alone, and the receiver's offset names the receiver alone. */
  lemma OffsetsOfOne(params: seq<string>, k: nat, offsets: seq<int>)
    requires k < |params| && offsets != [] && forall i :: i in offsets ==> Covers(params, k, i)
    ensures forall x :: Named(params, offsets, x) <==> x == k
    ensures forall x :: Named(params, [Total(params)], x) <==> x == RECEIVER
  {
    SlotsGrow(params, k + 1, |params|);
    forall i | i in offsets ensures 0 <= i <= Total(params) && FromTop(params, i) == k {
      CoversIsStack(params, k, i);
    }
    assert offsets[0] in offsets && FromTop(params, offsets[0]) == k;
    CoversIsStack(params, k, Total(params));
    assert Total(params) in [Total(params)];
  }

  /** A parameter covers one offset or two: two for `J` and `D` only, not for arrays of them. */
  lemma OffsetsCovered(params: seq<string>, k: nat)
    requires k < |params|
    ensures var top := Total(params) - Slots(params, k) - 1;
      && Covers(params, k, top) && !Covers(params, k, top + 1)
      && (Covers(params, k, top - 1) <==> params[k] == "J" || params[k] == "D") && !Covers(params, k, top - 2)
  {
  }
}
