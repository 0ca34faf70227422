/** What the lease reaper and the retention purge change (helpdesktool/lease_reaper.py,
    helpdesktool/retention_worker.py). */
module Upkeep {
  import opened Text
  import opened Lifecycle
  import opened Server

  /** The reaper takes exactly the claims whose lease has run out, and frees them: back to the queue while
      attempts remain, failed otherwise, with the event that says so. */
  lemma ReapedExactly(c: Config, s: State, id: string, now: int)
    ensures
      var t := Next(c, s, OpReap(id), now);
      if id in s.actions && s.actions[id].status == Claimed
         && s.actions[id].leaseExpiresAt.Some? && s.actions[id].leaseExpiresAt.value < now then
        var row := s.actions[id];
        var left := row.attempt < c.maxAttempts;
        t == s.(
          actions := s.actions[id := row.(status := if left then Queued else Failed, tokenHash := None,
                                          claimedAt := None, leaseExpiresAt := None)],
          audit := s.audit + [Event(row.tenant, id, "system:lease_reaper",
                                    if left then LeaseRequeued(row.attempt, Claimed, Queued)
                                    else RetriesExhausted(Failed, row.attempt, Claimed))])
      else t == s
  {
  }

  /** The purge removes exactly the records created before the cutoff, and touches nothing else. */
  lemma PurgedExactly(c: Config, s: State, cutoff: int, now: int)
    ensures
      var t := Next(c, s, OpPurge(cutoff), now);
      && (forall rk :: rk in t.records <==> rk in s.records && s.records[rk].createdAt >= cutoff)
      && (forall rk <- t.records :: t.records[rk] == s.records[rk])
      && t == s.(records := t.records)
  {
  }
}
