/** OVERRIDES proven from erased descriptors, and the claims a kept bytecode pass publishes. */
module BytecodeOverrides {
  import opened GraphModel
  import opened Graphs
  import opened BytecodeHierarchy
  import opened Overrides

  datatype Method = Method(name: string, descriptor: string, line: int, id: string)

  /** Override-capable methods by binary class name, in parse order. */
  type Declared = seq<(string, seq<Method>)>

  /** The method of `anc` that `m` overrides by erased descriptor, if any other. */
  function Target(ix: SourceIndex, m: Method, anc: string): Option<string> {
    var t := ix.overrideTarget(anc, m.name, m.descriptor);
    if t == Some(m.id) then None else t
  }

  ghost predicate Proven(ix: SourceIndex, h: Headers, declared: Declared, p: Pair) {
    exists k, m, anc :: ProvenBy(ix, h, declared, p, k, m, anc)
  }

  ghost predicate ProvenBy(ix: SourceIndex, h: Headers, declared: Declared, p: Pair, k: int, m: Method, anc: string) {
    && 0 <= k < |declared| && m in declared[k].1 && p.0 == m.id
    && ReachesAbove(Links(h), declared[k].0, anc) && Target(ix, m, anc) == Some(p.1)
  }

  /** Some complete class declares the method. */
  ghost predicate Authority(ix: SourceIndex, h: Headers, declared: Declared, id: string) {
    exists k, m :: 0 <= k < |declared| && m in declared[k].1 && m.id == id && Complete(ix, h, declared[k].0)
  }

  ghost function Targets(ix: SourceIndex, m: Method, chain: seq<string>): set<Pair> {
    set anc | anc in chain && Target(ix, m, anc).Some? :: (m.id, Target(ix, m, anc).value)
  }

  ghost function TargetsOfAll(ix: SourceIndex, methods: seq<Method>, chain: seq<string>): set<Pair> {
    set m, p | m in methods && p in Targets(ix, m, chain) :: p
  }

  function ProvenEdge(ix: SourceIndex, m: Method, target: string): Edge {
    Edge("OVERRIDES", m.id, target, "EXTRACTED", "bytecode", ix.fileOf(m.id), m.line, 0)
  }

  lemma TargetsNext(ix: SourceIndex, m: Method, chain: seq<string>, anc: string)
    ensures Targets(ix, m, chain + [anc])
         == Targets(ix, m, chain) + if Target(ix, m, anc).Some? then {(m.id, Target(ix, m, anc).value)} else {}
  {
    var more := chain + [anc];
    assert forall c :: c in more <==> c in chain || c == anc;
    forall p | p in Targets(ix, m, chain) ensures p in Targets(ix, m, more) {
      var c :| c in chain && Target(ix, m, c).Some? && p == (m.id, Target(ix, m, c).value);
      assert c in more;
    }
    if Target(ix, m, anc).Some? {
      assert anc in more;
      assert (m.id, Target(ix, m, anc).value) in Targets(ix, m, more);
    }
  }

  /** An extracted OVERRIDES edge that is evident on the method's line. */
  ghost predicate ProvenFrom(ix: SourceIndex, m: Method, e: Edge) {
    && e.etype == "OVERRIDES" && e.src == m.id && e.confidence == "EXTRACTED" && e.strategy == "bytecode"
    && e.evidenceFile == ix.fileOf(m.id) && e.evidenceLine == m.line && e.evidenceCol == 0
  }

  ghost predicate AllProven(ix: SourceIndex, declared: Declared, out: seq<Edge>) {
    forall e :: e in out ==> exists k, m :: 0 <= k < |declared| && m in declared[k].1 && ProvenFrom(ix, m, e)
  }

  lemma AllProvenMore(ix: SourceIndex, declared: Declared, next: (string, seq<Method>), out: seq<Edge>, out': seq<Edge>)
    requires AllProven(ix, declared, out)
    requires forall e :: e in out' ==> e in out || exists m :: m in next.1 && ProvenFrom(ix, m, e)
    ensures AllProven(ix, declared + [next], out')
  {
    var more := declared + [next];
    forall e | e in out' ensures exists k, m :: 0 <= k < |more| && m in more[k].1 && ProvenFrom(ix, m, e) {
      if e in out {
        var k, m :| 0 <= k < |declared| && m in declared[k].1 && ProvenFrom(ix, m, e);
        assert m in more[k].1;
      } else {
        var m :| m in next.1 && ProvenFrom(ix, m, e);
        assert m in more[|declared|].1;
      }
    }
  }

  /** The pass's `seen` set restricted to OVERRIDES keys is `emitted`: no other loop adds such a key. */
  method EmitTargets(ix: SourceIndex, m: Method, chain: seq<string>, emitted: set<Pair>, out: seq<Edge>)
    returns (emitted': set<Pair>, out': seq<Edge>)
    requires EmittedOnce(out, emitted)
    ensures EmittedOnce(out', emitted') && emitted' == emitted + Targets(ix, m, chain)
    ensures forall e :: e in out' ==> e in out || ProvenFrom(ix, m, e)
  {
    emitted', out' := emitted, out;
    for i := 0 to |chain|
      invariant EmittedOnce(out', emitted') && emitted' == emitted + Targets(ix, m, chain[..i])
      invariant forall e :: e in out' ==> e in out || ProvenFrom(ix, m, e)
    {
      assert chain[..i + 1] == chain[..i] + [chain[i]];
      TargetsNext(ix, m, chain[..i], chain[i]);
      var target := ix.overrideTarget(chain[i], m.name, m.descriptor);
      if target.Some? && target.value != m.id && (m.id, target.value) !in emitted' {
        EmitOne(out', emitted', ProvenEdge(ix, m, target.value));
        out' := out' + [ProvenEdge(ix, m, target.value)];
        emitted' := emitted' + {(m.id, target.value)};
      }
    }
    assert chain[..|chain|] == chain;
  }

  method EmitClass(ix: SourceIndex, methods: seq<Method>, chain: seq<string>, complete: bool,
                   emitted: set<Pair>, authoritative: set<string>, out: seq<Edge>)
    returns (emitted': set<Pair>, authoritative': set<string>, out': seq<Edge>)
    requires EmittedOnce(out, emitted)
    ensures EmittedOnce(out', emitted') && emitted' == emitted + TargetsOfAll(ix, methods, chain)
    ensures authoritative' == authoritative + if complete then (set m | m in methods :: m.id) else {}
    ensures forall e :: e in out' ==> e in out || exists m :: m in methods && ProvenFrom(ix, m, e)
  {
    emitted', authoritative', out' := emitted, authoritative, out;
    for i := 0 to |methods|
      invariant EmittedOnce(out', emitted') && emitted' == emitted + TargetsOfAll(ix, methods[..i], chain)
      invariant authoritative' == authoritative + if complete then (set m | m in methods[..i] :: m.id) else {}
      invariant forall e :: e in out' ==> e in out || exists m :: m in methods && ProvenFrom(ix, m, e)
    {
      assert methods[..i + 1] == methods[..i] + [methods[i]];
      emitted', out' := EmitTargets(ix, methods[i], chain, emitted', out');
      if complete {
        authoritative' := authoritative' + {methods[i].id};
      }
    }
    assert methods[..|methods|] == methods;
  }

  ghost predicate SaysProven(ix: SourceIndex, h: Headers, declared: Declared, emitted: set<Pair>) {
    forall p :: p in emitted <==> Proven(ix, h, declared, p)
  }

  ghost predicate SaysAuthority(ix: SourceIndex, h: Headers, declared: Declared, authoritative: set<string>) {
    forall id :: id in authoritative <==> Authority(ix, h, declared, id)
  }

  lemma ProvenNext(ix: SourceIndex, h: Headers, declared: Declared, binary: string, methods: seq<Method>,
                   chain: seq<string>, emitted: set<Pair>)
    requires SaysProven(ix, h, declared, emitted)
    requires forall c :: c in chain <==> ReachesAbove(Links(h), binary, c)
    ensures SaysProven(ix, h, declared + [(binary, methods)], emitted + TargetsOfAll(ix, methods, chain))
  {
    var more := declared + [(binary, methods)];
    forall p | p in emitted ensures Proven(ix, h, more, p) {
      var k, m, anc :| ProvenBy(ix, h, declared, p, k, m, anc);
      assert ProvenBy(ix, h, more, p, k, m, anc);
    }
    forall p | p in TargetsOfAll(ix, methods, chain) ensures Proven(ix, h, more, p) {
      var m :| m in methods && p in Targets(ix, m, chain);
      var anc :| anc in chain && Target(ix, m, anc) == Some(p.1);
      assert ProvenBy(ix, h, more, p, |declared|, m, anc);
    }
    forall p | Proven(ix, h, more, p) ensures p in emitted + TargetsOfAll(ix, methods, chain) {
      var k, m, anc :| ProvenBy(ix, h, more, p, k, m, anc);
      if k < |declared| {
        assert ProvenBy(ix, h, declared, p, k, m, anc);
      } else {
        assert p in Targets(ix, m, chain);
      }
    }
  }

  lemma AuthorityNext(ix: SourceIndex, h: Headers, declared: Declared, binary: string, methods: seq<Method>,
                      authoritative: set<string>)
    requires SaysAuthority(ix, h, declared, authoritative)
    ensures SaysAuthority(ix, h, declared + [(binary, methods)],
              authoritative + if Complete(ix, h, binary) then (set m | m in methods :: m.id) else {})
  {
    var more := declared + [(binary, methods)];
    forall id | Authority(ix, h, declared, id) ensures Authority(ix, h, more, id) {
      var k, m :| 0 <= k < |declared| && m in declared[k].1 && m.id == id && Complete(ix, h, declared[k].0);
      assert m in more[k].1;
    }
    assert more[|declared|] == (binary, methods);
  }

  function MatchRate(matched: nat, missed: nat): real {
    if matched + missed == 0 then 0.0 else matched as real / (matched + missed) as real
  }

  /** No class of the repository was parsed, or too few methods matched: the class files are stale. */
  ghost predicate Discarded(classesInRepo: nat, matched: nat, missed: nat, minMatchRate: real) {
    || classesInRepo == 0
    || (if matched + missed == 0 then 0.0 < minMatchRate
        else matched as real < minMatchRate * (matched + missed) as real)
  }

  lemma RateBelowIff(matched: nat, missed: nat, minMatchRate: real)
    ensures MatchRate(matched, missed) < minMatchRate <==>
      if matched + missed == 0 then 0.0 < minMatchRate else matched as real < minMatchRate * (matched + missed) as real
  {
    if matched + missed != 0 {
      var rate, all := MatchRate(matched, missed), (matched + missed) as real;
      assert rate * all == matched as real;
      if rate < minMatchRate { ScaledBelow(rate, minMatchRate, all); }
      if minMatchRate <= rate { ScaledUpTo(minMatchRate, rate, all); }
    }
  }

  lemma ScaledBelow(a: real, b: real, c: real)
    requires a < b && 0.0 < c
    ensures a * c < b * c
  {
  }

  lemma ScaledUpTo(a: real, b: real, c: real)
    requires a <= b && 0.0 < c
    ensures a * c <= b * c
  {
  }

  /** How many declaring classes have an ancestor of the repository without a header. */
  ghost function Truncated(ix: SourceIndex, h: Headers, declared: Declared): nat {
    if declared == [] then 0
    else Truncated(ix, h, declared[..|declared| - 1]) + if Complete(ix, h, declared[|declared| - 1].0) then 0 else 1
  }

  /** The report of one bytecode pass. */
  class BytecodeReport {
    var available: bool
    var authoritative: set<string>
    var emitted: set<Pair>
    var overrideEdges: nat
    var truncated: nat

    constructor ()
      ensures !available && authoritative == {} && emitted == {} && overrideEdges == 0 && truncated == 0
    {
      available, authoritative, emitted, overrideEdges, truncated := false, {}, {}, 0, 0;
    }

    /** The guards, then the OVERRIDES walk: a discarded pass discards its claims too. */
    method Finish(ix: SourceIndex, h: Headers, declared: Declared, edges: seq<Edge>,
                  classesInRepo: nat, matched: nat, missed: nat, minMatchRate: real) returns (kept: seq<Edge>)
      requires !available && authoritative == {} && emitted == {} && overrideEdges == 0 && truncated == 0
      modifies this
      ensures available <==> !Discarded(classesInRepo, matched, missed, minMatchRate)
      ensures !available ==> kept == [] && authoritative == {} && emitted == {} && overrideEdges == 0 && truncated == 0
      ensures available ==> edges <= kept && Accounts(ix, h, declared, kept[|edges|..])
    {
      kept := [];
      if classesInRepo == 0 { return; }
      RateBelowIff(matched, missed, minMatchRate);
      if MatchRate(matched, missed) < minMatchRate { return; }
      var overrides := WalkAll(ix, h, declared);
      kept := edges + overrides;
      assert kept[|edges|..] == overrides;
      available := true;
    }

    /** The report's claims are those of `overrides`, and say exactly what the headers and descriptors prove. */
    ghost predicate Accounts(ix: SourceIndex, h: Headers, declared: Declared, overrides: seq<Edge>)
      reads this
    {
      && OncePerPair(overrides) && emitted == PairsOf(overrides) && overrideEdges == |overrides|
      && AllProven(ix, declared, overrides)
      && SaysProven(ix, h, declared, emitted) && SaysAuthority(ix, h, declared, authoritative)
      && truncated == Truncated(ix, h, declared)
    }

    method WalkAll(ix: SourceIndex, h: Headers, declared: Declared) returns (overrides: seq<Edge>)
      requires authoritative == {} && emitted == {} && overrideEdges == 0 && truncated == 0
      modifies this
      ensures available == old(available) && Accounts(ix, h, declared, overrides)
    {
      overrides := [];
      for i := 0 to |declared|
        invariant available == old(available) && Accounts(ix, h, declared[..i], overrides)
      {
        assert declared[..i + 1] == declared[..i] + [declared[i]];
        overrides := WalkClass(ix, h, declared[..i], declared[i].0, declared[i].1, overrides);
      }
      assert declared[..|declared|] == declared;
    }

    /** One declaring class: its ancestors once, then each of its methods along them. */
    method WalkClass(ix: SourceIndex, h: Headers, ghost before: Declared, binary: string, methods: seq<Method>,
                     overrides: seq<Edge>)
      returns (overrides': seq<Edge>)
      requires Accounts(ix, h, before, overrides)
      modifies this
      ensures available == old(available) && Accounts(ix, h, before + [(binary, methods)], overrides')
    {
      var chain, complete := WalkChain(ix, h, binary);
      ProvenNext(ix, h, before, binary, methods, chain, emitted);
      AuthorityNext(ix, h, before, binary, methods, authoritative);
      emitted, authoritative, overrides' := EmitClass(ix, methods, chain, complete, emitted, authoritative, overrides);
      AllProvenMore(ix, before, (binary, methods), overrides, overrides');
      overrideEdges := overrideEdges + (|overrides'| - |overrides|);
      if !complete {
        truncated := truncated + 1;
      }
      assert (before + [(binary, methods)])[..|before|] == before;
    }
  }
}
