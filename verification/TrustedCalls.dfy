/** Which of the resolver's calls the reachability marks go along. */
module TrustedCalls {
  import opened GraphModel
  import opened LookupIndices
  import opened Narrowing
  import opened ReferenceEdges
  import opened Visibility
  import opened CallMeaning
  import opened CallTargets
  import opened Reach

  /** The candidates stand in the caller's surroundings, or a class of the receiver has them. */
  ghost predicate ByScopeOrReceiver(w: World, ref: RawRef) {
    exists k :: (0 <= k < 2 || 5 <= k < 11) && Strongest(w, ref, k)
  }

  lemma NameIsNotTrusted(strategy: string)
    requires NameTier(strategy)
    ensures !Trusted(strategy)
  {
    NameTierStarts(strategy);
  }

  lemma ReceiverLabels(k: int)
    requires 5 <= k < 11
    ensures "receiver_type" <= Label(k)
  {
    assert "receiver_type_hint" == "receiver_type" + "_hint";
    assert "receiver_type_hint_inherited" == "receiver_type" + "_hint_inherited";
    assert "receiver_type_inherited" == "receiver_type" + "_inherited";
  }

  lemma ScopeLabels(k: int)
    requires 0 <= k < 2
    ensures "same_" <= Label(k)
  {
    assert "same_scope" == "same_" + "scope" && "same_file" == "same_" + "file";
  }

  lemma LabelStarts(k: int)
    requires 0 <= k < 12
    ensures Label(k) != "" && Label(k)[0] != 'b'
    ensures Label(k)[0] == 's' <==> k < 2
    ensures Label(k)[0] == 'r' <==> 5 <= k < 11
  {
  }

  lemma PrefixStarts(p: string, s: string)
    requires p != "" && p <= s
    ensures s != "" && s[0] == p[0]
  {
  }

  lemma SaidTrustedIff(w: World, ref: RawRef, k: int)
    requires 0 <= k < 12
    ensures Trusted(Said(w, ref, k)) <==> k < 2 || 5 <= k < 11
  {
    var said := Said(w, ref, k);
    LabelStarts(k);
    if k < 2 { ScopeLabels(k); }
    if 5 <= k < 11 { ReceiverLabels(k); }
    TrustedIffSure(said);
    assert Label(k) <= said;
    assert said[0] == Label(k)[0];
    if "receiver_type" <= said { PrefixStarts("receiver_type", said); }
    if "same_" <= said { PrefixStarts("same_", said); }
    assert "bytecode"[0] == 'b';
  }

  /** A call's CALLS edges are trusted exactly when its scope or its receiver decided, neither an import nor the bare
      name. */
  lemma TrustedIffDecided(sy: Symbols, cv: Conventions, nodes: seq<Node>, ref: RawRef, e: Edge)
    requires Built(sy.ix, nodes) && TailsPlain(sy.im) && ref.rtype == "CALLS"
    requires e in CallEdges(sy, cv, ref) && e.etype == "CALLS"
    ensures Trusted(e.strategy) <==> ByScopeOrReceiver(WorldOf(sy, nodes), ref)
  {
    var w := WorldOf(sy, nodes);
    CallEdgesLeadRight(sy, cv, nodes, ref);
    var n :| CallHit(w, ref, n);
    var k :| Strongest(w, ref, k) && InTier(w, ref, k, n) && ArityFits(w, ref, k, n);
    SaidTrustedIff(w, ref, k);
    forall j | Strongest(w, ref, j) ensures j == k { OneStrongest(w, ref, j, k); }
  }
}
