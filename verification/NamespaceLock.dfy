/** The per-namespace lock and status on the metadata node. */
module NamespaceLock {
  import opened GraphModel

  datatype Status = Absent | Indexing | Ready | Failed

  datatype Meta = Meta(lockedAt: Option<real>, lockToken: Option<string>, status: Status, hash: Option<string>)

  predicate Claimable(m: Meta, staleBefore: real) { m.lockedAt.None? || m.lockedAt.value < staleBefore }

  function Claimed(m: Meta, token: string, now: real, staleBefore: real): Meta {
    if Claimable(m, staleBefore) then m.(lockedAt := Some(now), lockToken := Some(token)) else m
  }

  function Released(m: Meta, token: string): Meta {
    if m.lockToken == Some(token) then m.(lockedAt := None, lockToken := None) else m
  }

  /** A fresh, successful baseline: only status "ready" makes the stored hash one. */
  function Baseline(m: Meta): Option<string> { if m.status == Ready then m.hash else None }

  /** Of two claims one after the other, the second succeeds exactly when its cut-off is later than the first's
      record. */
  lemma BothClaimsIff(m: Meta, token: string, now: real, staleBefore: real, later: real)
    requires Claimable(m, staleBefore)
    ensures Claimable(Claimed(m, token, now, staleBefore), later) <==> now < later
    ensures forall t :: t != token ==>
      Released(Claimed(m, token, now, staleBefore), t) == Claimed(m, token, now, staleBefore)
    ensures Claimable(Released(Claimed(m, token, now, staleBefore), token), later)
  {
  }

  /** The metadata node, changed one statement at a time. */
  class MetaNode {
    var meta: Meta
    var jobId: Option<string>

    constructor ()
      ensures meta == Meta(None, None, Absent, None) && jobId == None
    {
      meta, jobId := Meta(None, None, Absent, None), None;
    }

    method AcquireLock(token: string, staleBefore: real, now: real, job: Option<string>) returns (acquired: bool)
      modifies this
      ensures acquired <==> Claimable(old(meta), staleBefore)
      ensures meta == Claimed(old(meta), token, now, staleBefore)
      ensures jobId == if acquired then job else old(jobId)
    {
      acquired := meta.lockedAt.None? || meta.lockedAt.value < staleBefore;
      if acquired {
        meta := meta.(lockedAt := Some(now), lockToken := Some(token));
        jobId := job;
      }
    }

    /** Releasing with a token that does not hold the lock changes nothing. */
    method ReleaseLock(token: string)
      modifies this
      ensures meta == Released(old(meta), token)
      ensures old(meta.lockToken) != Some(token) ==> meta == old(meta) && jobId == old(jobId)
      ensures old(meta.lockToken) == Some(token) ==> Claimable(meta, 0.0) && jobId == None
      ensures meta.status == old(meta.status) && meta.hash == old(meta.hash)
    {
      if meta.lockToken == Some(token) {
        meta := meta.(lockedAt := None, lockToken := None);
        jobId := None;
      }
    }

    method SetStatus(status: Status, hash: Option<string>)
      modifies this`meta
      ensures meta == old(meta).(status := status, hash := if hash.Some? then hash else old(meta).hash)
    {
      meta := meta.(status := status, hash := if hash.Some? then hash else meta.hash);
    }
  }
}
