/** Coverage counters per reference type, and their conservation over a run of references. */
module CoverageLedger {

  datatype Coverage = Coverage(total: int, resolved: int, ambiguous: int, unresolved: int, external: int) {
    function Accounted(): int { resolved + ambiguous + unresolved + external }
  }

  datatype Verdict = Resolved | Ambiguous | Unresolved | External

  type Ledger = map<string, Coverage>

  function At(l: Ledger, t: string): Coverage {
    if t in l then l[t] else Coverage(0, 0, 0, 0, 0)
  }

  function Bump(c: Coverage, b: Verdict): Coverage {
    match b
    case Resolved => c.(resolved := c.resolved + 1)
    case Ambiguous => c.(ambiguous := c.ambiguous + 1)
    case Unresolved => c.(unresolved := c.unresolved + 1)
    case External => c.(external := c.external + 1)
  }

  function Count(l: Ledger, t: string, b: Verdict): Ledger { l[t := Bump(At(l, t), b)] }

  function Retotal(l: Ledger, t: string, d: int): Ledger { l[t := At(l, t).(total := At(l, t).total + d)] }

  /** A type takes in an entry of its own and counts it. */
  function Receive(l: Ledger, t: string, b: Verdict): Ledger { Count(Retotal(l, t, 1), t, b) }

  /** How one reference was settled: not looked at, counted once, moved over to REFERENCES,
      or counted once with a REFERENCES fallback beside it. REFERENCES is passed as `weak`. */
  datatype Account = Skipped | Plain(b: Verdict) | Demoted(b: Verdict) | Fallback(b: Verdict, fb: Verdict)

  function Settle(l: Ledger, weak: string, t: string, a: Account): Ledger {
    match a
    case Skipped => l
    case Plain(b) => Count(l, t, b)
    case Demoted(b) => Receive(Retotal(l, t, -1), weak, b)
    case Fallback(b, fb) => Receive(Count(l, t, b), weak, fb)
  }

  /** One processed reference: its type and its settlement. */
  datatype Entry = Entry(rtype: string, account: Account)

  function Arrivals(log: seq<Entry>, t: string): nat {
    if log == [] then 0
    else Arrivals(log[..|log| - 1], t) + if log[|log| - 1].rtype == t then 1 else 0
  }

  function Skips(log: seq<Entry>, t: string): nat {
    if log == [] then 0
    else Skips(log[..|log| - 1], t) + if log[|log| - 1] == Entry(t, Skipped) then 1 else 0
  }

  /** References of type `t` that were moved over to REFERENCES. */
  function Demotions(log: seq<Entry>, t: string): nat {
    if log == [] then 0
    else Demotions(log[..|log| - 1], t) + if log[|log| - 1].rtype == t && log[|log| - 1].account.Demoted? then 1 else 0
  }

  /** Entries that REFERENCES received from other types: demotions and fallbacks. */
  function Received(log: seq<Entry>): nat {
    if log == [] then 0
    else Received(log[..|log| - 1])
         + if log[|log| - 1].account.Demoted? || log[|log| - 1].account.Fallback? then 1 else 0
  }

  function Fallbacks(log: seq<Entry>): nat {
    if log == [] then 0
    else Fallbacks(log[..|log| - 1]) + if log[|log| - 1].account.Fallback? then 1 else 0
  }

  function Arrive(c: Coverage): Coverage { c.(total := c.total + 1) }

  /** What one entry does to the counters of its own type. */
  function TellOwn(c: Coverage, t: string, e: Entry): Coverage {
    if t != e.rtype then c else match e.account
      case Skipped => Arrive(c)
      case Plain(b) => Bump(Arrive(c), b)
      case Demoted(_) => c
      case Fallback(b, _) => Bump(Arrive(c), b)
  }

  /** What a moved reference or a fallback does to the counters of REFERENCES. */
  function TellWeak(c: Coverage, a: Account): Coverage {
    match a
    case Demoted(b) => Bump(Arrive(c), b)
    case Fallback(_, fb) => Bump(Arrive(c), fb)
    case _ => c
  }

  /** What one entry does to the counters of type `t`. */
  function Tell(c: Coverage, weak: string, t: string, e: Entry): Coverage {
    var own := TellOwn(c, t, e);
    if t != weak then own else TellWeak(own, e.account)
  }

  /** The counters of type `t`, told from the log alone. */
  function Told(log: seq<Entry>, weak: string, t: string): Coverage {
    if log == [] then Coverage(0, 0, 0, 0, 0) else Tell(Told(log[..|log| - 1], weak, t), weak, t, log[|log| - 1])
  }

  ghost predicate Matches(l: Ledger, weak: string, log: seq<Entry>) {
    forall t :: At(l, t) == Told(log, weak, t)
  }

  lemma SettleTells(l: Ledger, weak: string, e: Entry, t: string)
    ensures At(Settle(Retotal(l, e.rtype, 1), weak, e.rtype, e.account), t) == Tell(At(l, t), weak, t, e)
  {
    SettleOwn(l, e, t);
    match e.account {
      case Demoted(b) => AtReceive(Retotal(Retotal(l, e.rtype, 1), e.rtype, -1), weak, b, t);
      case Fallback(b, fb) => AtReceive(Count(Retotal(l, e.rtype, 1), e.rtype, b), weak, fb, t);
      case _ =>
    }
  }

  lemma AtReceive(l: Ledger, weak: string, b: Verdict, t: string)
    ensures At(Receive(l, weak, b), t) == if t == weak then Bump(Arrive(At(l, t)), b) else At(l, t)
  {
  }

  lemma SettleOwn(l: Ledger, e: Entry, t: string)
    ensures var arrived := Retotal(l, e.rtype, 1);
      TellOwn(At(l, t), t, e) == At(match e.account
        case Skipped => arrived
        case Plain(b) => Count(arrived, e.rtype, b)
        case Demoted(_) => Retotal(arrived, e.rtype, -1)
        case Fallback(b, _) => Count(arrived, e.rtype, b), t)
  {
  }

  /** One reference arrives, its type's total goes up, and it is settled. */
  lemma SettleMatches(l: Ledger, weak: string, log: seq<Entry>, e: Entry)
    requires Matches(l, weak, log)
    ensures Matches(Settle(Retotal(l, e.rtype, 1), weak, e.rtype, e.account), weak, log + [e])
  {
    assert (log + [e])[..|log|] == log;
    forall t ensures At(Settle(Retotal(l, e.rtype, 1), weak, e.rtype, e.account), t) == Told(log + [e], weak, t) {
      SettleTells(l, weak, e, t);
    }
  }

  lemma OwnAccounts(c: Coverage, t: string, e: Entry)
    ensures TellOwn(c, t, e).total == c.total + if t == e.rtype && !e.account.Demoted? then 1 else 0
    ensures TellOwn(c, t, e).Accounted()
         == c.Accounted() + if t == e.rtype && !e.account.Demoted? && !e.account.Skipped? then 1 else 0
  {
  }

  lemma WeakAccounts(c: Coverage, a: Account)
    ensures TellWeak(c, a).total == c.total + if a.Demoted? || a.Fallback? then 1 else 0
    ensures TellWeak(c, a).Accounted() == c.Accounted() + if a.Demoted? || a.Fallback? then 1 else 0
  {
  }

  /** Of every type: the total is what arrived and was not moved away, plus what REFERENCES took in;
      and the four buckets account for all of it but what was skipped. */
  lemma {:induction false} ToldIsConserved(log: seq<Entry>, weak: string, t: string)
    ensures Told(log, weak, t).total == Arrivals(log, t) - Demotions(log, t) + (if t == weak then Received(log) else 0)
    ensures Told(log, weak, t).total == Told(log, weak, t).Accounted() + Skips(log, t)
  {
    if log != [] {
      var before, last := Told(log[..|log| - 1], weak, t), log[|log| - 1];
      ToldIsConserved(log[..|log| - 1], weak, t);
      OwnAccounts(before, t, last);
      WeakAccounts(TellOwn(before, t, last), last.account);
    }
  }

  /** The verdict an entry gives out among the references of type `t`, unless it was moved over to REFERENCES. */
  ghost function VerdictToOwn(t: string, e: Entry): multiset<Verdict> {
    if t == e.rtype && (e.account.Plain? || e.account.Fallback?) then multiset{e.account.b} else multiset{}
  }

  /** What it gives out among the REFERENCES: as one moved over, or as a fallback. */
  ghost function VerdictToWeak(a: Account): multiset<Verdict> {
    if a.Demoted? then multiset{a.b} else if a.Fallback? then multiset{a.fb} else multiset{}
  }

  ghost function GivenBy(log: seq<Entry>, weak: string, t: string): multiset<Verdict> {
    if log == [] then multiset{}
    else
      var e := log[|log| - 1];
      var m := GivenBy(log[..|log| - 1], weak, t) + VerdictToOwn(t, e);
      if t == weak then m + VerdictToWeak(e.account) else m
  }

  /** Each bucket is the number of the verdicts of its kind. */
  ghost predicate Buckets(c: Coverage, m: multiset<Verdict>) {
    c.resolved == m[Resolved] && c.ambiguous == m[Ambiguous] && c.unresolved == m[Unresolved]
      && c.external == m[External]
  }

  lemma OwnBuckets(c: Coverage, m: multiset<Verdict>, t: string, e: Entry)
    requires Buckets(c, m)
    ensures Buckets(TellOwn(c, t, e), m + VerdictToOwn(t, e))
  {
  }

  lemma WeakBuckets(c: Coverage, m: multiset<Verdict>, a: Account)
    requires Buckets(c, m)
    ensures Buckets(TellWeak(c, a), m + VerdictToWeak(a))
  {
  }

  lemma {:induction false} BucketsCountVerdicts(log: seq<Entry>, weak: string, t: string)
    ensures Buckets(Told(log, weak, t), GivenBy(log, weak, t))
  {
    if log != [] {
      var rest, e := log[..|log| - 1], log[|log| - 1];
      var before, m := Told(rest, weak, t), GivenBy(rest, weak, t);
      BucketsCountVerdicts(rest, weak, t);
      OwnBuckets(before, m, t, e);
      WeakBuckets(TellOwn(before, t, e), m + VerdictToOwn(t, e), e.account);
    }
  }

  // ---- the grand total ---------------------------------------------------

  ghost function GrandTotal(l: Ledger): int {
    if l == map[] then 0
    else var t :| t in l; l[t].total + GrandTotal(l - {t})
  }

  lemma {:induction false} TakeOut(l: Ledger, t: string)
    requires t in l
    ensures GrandTotal(l) == l[t].total + GrandTotal(l - {t})
    decreases |l|
  {
    var u :| u in l && GrandTotal(l) == l[u].total + GrandTotal(l - {u});
    if u != t {
      assert (l - {u}) - {t} == (l - {t}) - {u};
      TakeOut(l - {u}, t);
      TakeOut(l - {t}, u);
    }
  }

  lemma GrandTotalSet(l: Ledger, t: string, c: Coverage)
    ensures GrandTotal(l[t := c]) == GrandTotal(l) - At(l, t).total + c.total
  {
    TakeOut(l[t := c], t);
    assert l[t := c] - {t} == l - {t};
    if t in l { TakeOut(l, t); } else { assert l - {t} == l; }
  }

  lemma GrandTotalRetotal(l: Ledger, t: string, d: int)
    ensures GrandTotal(Retotal(l, t, d)) == GrandTotal(l) + d
  {
    GrandTotalSet(l, t, At(l, t).(total := At(l, t).total + d));
  }

  /** A verdict moves no total. */
  lemma GrandTotalCount(l: Ledger, t: string, b: Verdict)
    ensures GrandTotal(Count(l, t, b)) == GrandTotal(l)
  {
    GrandTotalSet(l, t, Bump(At(l, t), b));
  }

  /** Settling adds to the grand total only what a fallback adds. */
  lemma GrandTotalSettles(l: Ledger, weak: string, t: string, a: Account, total: int)
    requires GrandTotal(l) == total
    ensures GrandTotal(Settle(l, weak, t, a)) == total + if a.Fallback? then 1 else 0
  {
    match a {
      case Skipped =>
      case Plain(b) => GrandTotalCount(l, t, b);
      case Demoted(b) =>
        var l1 := Retotal(l, t, -1);
        var l2 := Retotal(l1, weak, 1);
        GrandTotalRetotal(l, t, -1);
        GrandTotalRetotal(l1, weak, 1);
        GrandTotalCount(l2, weak, b);
        assert Settle(l, weak, t, a) == Count(l2, weak, b);
      case Fallback(b, fb) =>
        var l1 := Count(l, t, b);
        var l2 := Retotal(l1, weak, 1);
        GrandTotalCount(l, t, b);
        GrandTotalRetotal(l1, weak, 1);
        GrandTotalCount(l2, weak, fb);
        assert Settle(l, weak, t, a) == Count(l2, weak, fb);
    }
  }

  /** The grand total is the references processed plus the fallback REFERENCES. */
  lemma GrandTotalGrows(l: Ledger, weak: string, log: seq<Entry>, e: Entry)
    requires GrandTotal(l) == |log| + Fallbacks(log)
    ensures GrandTotal(Settle(Retotal(l, e.rtype, 1), weak, e.rtype, e.account)) == |log + [e]| + Fallbacks(log + [e])
  {
    assert (log + [e])[..|log|] == log;
    GrandTotalRetotal(l, e.rtype, 1);
    var m := Retotal(l, e.rtype, 1);
    GrandTotalSettles(m, weak, e.rtype, e.account, GrandTotal(m));
  }
}
