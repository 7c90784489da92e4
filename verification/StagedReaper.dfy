/** The maintenance loop: expire past-deadline rows, expire orphans, purge settled rows past retention. */
module StagedReapers {
  import opened Wrappers
  import opened StagedTable
  import opened StagedIntentStores

  /** A row the reaper need not settle: live deadline, or young and still waiting for its event. */
  predicate Tended(r: Row, now: int, ttlMs: int) {
    r.state == Active ==>
      || (r.deadline.Some? && r.deadline.value >= now)
      || (!r.received && r.deadline.None? && r.createdAt >= now - ttlMs)
  }

  class StagedReaper {
    const retentionMs: int
    const unreceivedTtlMs: int
    const staged: StagedIntentStore
    var reaping: bool

    constructor (staged: StagedIntentStore, retentionMs: int, unreceivedTtlMs: int)
      ensures this.staged == staged && this.retentionMs == retentionMs && this.unreceivedTtlMs == unreceivedTtlMs
      ensures !reaping
    {
      this.staged := staged;
      this.retentionMs := retentionMs;
      this.unreceivedTtlMs := unreceivedTtlMs;
      reaping := false;
    }

    /** The table after the three passes. */
    function Reaped(t: Table, now: int): Table {
      var expired := ExpiredRows(t, PastDue(t, now), now);
      var tended := ExpiredRows(expired, Orphans(expired, now - unreceivedTtlMs), now);
      tended - Retired(tended, now - retentionMs)
    }

    /** One pass, unless one is under way: expire, expire orphans, purge, in this order. */
    method Reap(now: int)
      modifies this, staged
      ensures reaping == old(reaping)
      ensures old(reaping) ==> staged.rows == old(staged.rows)
      ensures !old(reaping) ==> staged.rows == Reaped(old(staged.rows), now)
    {
      if reaping {
        return;
      }
      reaping := true;
      var expired := staged.ExpireDue(now);
      ghost var t := staged.rows;
      var orphaned := staged.ExpireUnreceived(now - unreceivedTtlMs, now);
      ghost var u := staged.rows;
      assert u == ExpiredRows(t, Orphans(t, now - unreceivedTtlMs), now);
      var purged := staged.PurgeTerminal(now - retentionMs);
      assert staged.rows == u - Retired(u, now - retentionMs);
      reaping := false;
    }
  }

  /** After a pass no active row is past its deadline and none has waited longer than the TTL. */
  lemma ReapedIsTended(reaper: StagedReaper, t: Table, now: int)
    requires forall id :: id in t && t[id].received ==> t[id].deadline.Some?
    ensures forall id :: id in reaper.Reaped(t, now) ==> Tended(reaper.Reaped(t, now)[id], now, reaper.unreceivedTtlMs)
  {
    var expired := ExpiredRows(t, PastDue(t, now), now);
    var tended := ExpiredRows(expired, Orphans(expired, now - reaper.unreceivedTtlMs), now);
    forall id | id in tended ensures Tended(tended[id], now, reaper.unreceivedTtlMs) {
      assert expired[id].state == Active ==> id !in PastDue(t, now);
    }
  }

  // ---------- what a pass does to each row, with the clock written out ----------

  /** It leaves alone a live deadline, a received row without one, a young un-received row, and what was settled lately or the ledger lacks. */
  lemma ReapLeavesAlone(reaper: StagedReaper, t: Table, now: int, id: string)
    requires id in t
    requires var r := t[id];
             || (r.state == Active && r.deadline.Some? && now <= r.deadline.value)
             || (r.state == Active && r.deadline.None? && (r.received || now - reaper.unreceivedTtlMs <= r.createdAt))
             || (r.state != Active && (now - reaper.retentionMs <= r.updatedAt || (r.storeDigest.Some? && !r.ledgered)))
    ensures id in reaper.Reaped(t, now) && reaper.Reaped(t, now)[id] == t[id]
  {
    PassAt(reaper, t, now, id);
  }

  /** It expires exactly the other active rows, and frees their bytes; with a negative retention they go at once. */
  lemma ReapExpires(reaper: StagedReaper, t: Table, now: int, id: string)
    requires id in t && t[id].state == Active
    requires var r := t[id];
             || (r.deadline.Some? && r.deadline.value < now)
             || (r.deadline.None? && !r.received && r.createdAt < now - reaper.unreceivedTtlMs)
    ensures var u := reaper.Reaped(t, now);
            if 0 <= reaper.retentionMs || (t[id].storeDigest.Some? && !t[id].ledgered)
            then id in u && u[id] == t[id].(state := Expired, bytes := None, updatedAt := now)
            else id !in u
  {
    PassAt(reaper, t, now, id);
  }

  /** It deletes exactly the other settled rows, and makes none. */
  lemma ReapDeletes(reaper: StagedReaper, t: Table, now: int, id: string)
    requires id in t ==>
      t[id].state != Active && t[id].updatedAt < now - reaper.retentionMs && (t[id].storeDigest.None? || t[id].ledgered)
    ensures id !in reaper.Reaped(t, now)
  {
    if id in t { PassAt(reaper, t, now, id); }
  }

  /** However a row was settled, it is kept for the whole retention from then on. */
  lemma SettledRowsAreKept(reaper: StagedReaper, t: Table, now: int, id: string, r: Row, error: string, settledAt: int)
    requires id in t && t[id] in {MarkDone(r, settledAt), MarkDead(r, error, settledAt), Expire(r, settledAt)}
    requires now <= settledAt + reaper.retentionMs
    ensures id in reaper.Reaped(t, now) && reaper.Reaped(t, now)[id] == t[id]
  {
    ReapLeavesAlone(reaper, t, now, id);
  }

  lemma PassAt(reaper: StagedReaper, t: Table, now: int, id: string)
    requires id in t
    ensures var expired := if PastDeadline(t[id], now) then Expire(t[id], now) else t[id];
            var tended := if Orphaned(expired, now - reaper.unreceivedTtlMs) then Expire(expired, now) else expired;
            && (id in reaper.Reaped(t, now) <==> !Purgeable(tended, now - reaper.retentionMs))
            && (id in reaper.Reaped(t, now) ==> reaper.Reaped(t, now)[id] == tended)
  {
    var expired := ExpiredRows(t, PastDue(t, now), now);
    var tended := ExpiredRows(expired, Orphans(expired, now - reaper.unreceivedTtlMs), now);
    assert id in tended;
  }

  /** The reaper deletes no row whose completed store the ledger has not recorded. */
  lemma ReapKeepsUnledgered(t: Table, now: int, reaper: StagedReaper, id: string)
    requires id in t && t[id].storeDigest.Some? && !t[id].ledgered
    ensures id in reaper.Reaped(t, now) && reaper.Reaped(t, now)[id].storeDigest == t[id].storeDigest
  {
    var expired := ExpiredRows(t, PastDue(t, now), now);
    var tended := ExpiredRows(expired, Orphans(expired, now - reaper.unreceivedTtlMs), now);
    assert id in tended && !tended[id].ledgered;
  }
}
