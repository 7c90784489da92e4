/** The staged_intent table behind its methods: each is one SQL statement, or the two that upsertBytes issues. */
module StagedIntentStores {
  import opened Wrappers
  import opened StagedTable
  import opened StagedBytesBudget

  /** UPDATE ... WHERE intent_id = $1: the row as `after`, when there is one. */
  function Updated(t: Table, id: string, after: Row -> Row): Table {
    if id in t then t[id := after(t[id])] else t
  }

  /** The chosen rows expired, every other row untouched. */
  function ExpiredRows(t: Table, chosen: set<string>, now: int): Table {
    map id | id in t :: if id in chosen then Expire(t[id], now) else t[id]
  }

  function Due(t: Table, claimant: string, now: int): set<string> {
    set id | id in t && Claimable(t[id], claimant, now)
  }

  function BytesMissing(t: Table, now: int, graceMs: int): set<string> {
    set id | id in t && RecoveryDue(t[id], now, graceMs)
  }

  function AwaitingLedger(t: Table): set<string> {
    set id | id in t && PendingLedger(t[id])
  }

  function PastDue(t: Table, now: int): set<string> {
    set id | id in t && PastDeadline(t[id], now)
  }

  function Orphans(t: Table, cutoff: int): set<string> {
    set id | id in t && Orphaned(t[id], cutoff)
  }

  function Retired(t: Table, cutoff: int): set<string> {
    set id | id in t && Purgeable(t[id], cutoff)
  }

  /** ORDER BY created_at LIMIT: distinct rows of `due`, oldest first, and none left out that is older. */
  predicate OldestFirst(t: Table, due: set<string>, limit: nat, ids: seq<string>) {
    && (forall n :: 0 <= n < |ids| ==> ids[n] in due && ids[n] in t)
    && (forall m, n :: 0 <= m < n < |ids| ==> ids[m] != ids[n])
    && (forall m, n :: 0 <= m < n < |ids| ==> t[ids[m]].createdAt <= t[ids[n]].createdAt)
    && |ids| == (if limit < |due| then limit else |due|)
    && (forall n, id :: 0 <= n < |ids| && id in due && id in t && id !in ids ==> t[ids[n]].createdAt <= t[id].createdAt)
  }

  /** The rows a claim took, leased; every other row untouched. */
  function Leased(t: Table, ids: seq<string>, claimant: string, now: int, leaseMs: int): Table {
    map id | id in t :: if id in ids then Claim(t[id], claimant, now, leaseMs) else t[id]
  }

  class StagedIntentStore {
    const claimant: string
    const leaseMs: int
    var rows: Table

    constructor (claimant: string, leaseMs: int)
      ensures this.claimant == claimant && this.leaseMs == leaseMs && rows == map[]
    {
      this.claimant := claimant;
      this.leaseMs := leaseMs;
      rows := map[];
    }

    /** SUM(size) over the rows holding bytes, leaving one intent out. */
    method StagedBytesTotalExcluding(id: string) returns (total: nat)
      ensures total == Excluding(rows, id)
    {
      total := 0;
      var left := rows - {id};
      while left != map[]
        invariant total + Total(left) == Excluding(rows, id)
        decreases |left|
      {
        var next :| next in left;
        TotalWithout(left, next);
        Shrinks(left, next);
        total := total + Held(Some(left[next]));
        left := left - {next};
      }
    }

    /**
      One capped write; when it does not land, a second statement reads the total again to say why, over whatever table
      other writers have made of it by then.
     */
    method UpsertBytes(id: string, blob: StagedBytes, maxStagedBytes: Option<nat>, meanwhile: Option<Table>, now: int)
      returns (outcome: UpsertOutcome)
      modifies this
      ensures outcome.Accepted? <==>
        && (maxStagedBytes.Some? ==> Excluding(old(rows), id) + blob.size <= maxStagedBytes.value)
        && (id in old(rows) ==> old(rows)[id].state == Active)
      ensures outcome.Accepted? ==> rows == Admitted(old(rows), id, blob, maxStagedBytes, now)
      ensures !outcome.Accepted? ==> rows == if maxStagedBytes.Some? then meanwhile.GetOr(old(rows)) else old(rows)
      ensures outcome == Reported(old(rows), rows, id, blob.size, maxStagedBytes)
      ensures (outcome.Accepted? || meanwhile.None?) && maxStagedBytes.Some? && Total(old(rows)) <= maxStagedBytes.value
              ==> Total(rows) <= maxStagedBytes.value
    {
      ghost var before := rows;
      if maxStagedBytes.Some? && Total(before) <= maxStagedBytes.value {
        AdmissionKeepsBudget(before, id, blob, maxStagedBytes.value, now);
      }
      var staged := StagedBytesTotalExcluding(id);
      if maxStagedBytes.None? || staged + blob.size <= maxStagedBytes.value {
        var written := id !in rows || rows[id].state == Active;
        rows := Put(rows, id, Upsert(Get(rows, id), blob, now));
        if written {
          return Accepted;
        }
        assert rows == before;
      }
      if maxStagedBytes.Some? {
        rows := meanwhile.GetOr(rows);
        var total := StagedBytesTotalExcluding(id);
        if total + blob.size > maxStagedBytes.value {
          return Backpressure;
        }
      }
      return Terminal;
    }

    /** Returns whether the event was recorded; a settled row ignores it. */
    method MarkReceived(id: string, details: ReceivedDetails, now: int) returns (recorded: bool)
      modifies this
      ensures rows == Put(old(rows), id, Receive(Get(old(rows), id), details, now))
      ensures recorded <==> Writable(old(rows), id)
    {
      recorded := id !in rows || rows[id].state == Active;
      rows := Put(rows, id, Receive(Get(rows, id), details, now));
    }

    method RescheduleByteRecovery(id: string, nextAt: int, now: int)
      modifies this
      ensures rows == Updated(old(rows), id, r => BackOffRecovery(r, nextAt, now))
    {
      if id in rows {
        rows := rows[id := BackOffRecovery(rows[id], nextAt, now)];
      }
    }

    method ClaimForByteRecovery(now: int, graceMs: int, limit: nat) returns (ids: seq<string>)
      ensures OldestFirst(rows, BytesMissing(rows, now, graceMs), limit, ids)
    {
      ids := TakeOldest(BytesMissing(rows, now, graceMs), limit);
    }

    /** The row first in ORDER BY created_at. */
    method Oldest(ids: set<string>) returns (oldest: string)
      requires ids != {} && ids <= rows.Keys
      ensures oldest in ids
      ensures forall id :: id in ids ==> rows[oldest].createdAt <= rows[id].createdAt
    {
      oldest :| oldest in ids;
      var left := ids - {oldest};
      while left != {}
        invariant left <= ids && oldest in ids
        invariant forall id :: id in ids - left ==> rows[oldest].createdAt <= rows[id].createdAt
        decreases left
      {
        var id :| id in left;
        if rows[id].createdAt < rows[oldest].createdAt {
          oldest := id;
        }
        left := left - {id};
      }
    }

    method TakeOldest(due: set<string>, limit: nat) returns (ids: seq<string>)
      requires due <= rows.Keys
      ensures OldestFirst(rows, due, limit, ids)
    {
      ids := [];
      var left := due;
      while |ids| < limit && left != {}
        invariant |ids| <= limit && left <= due && |ids| + |left| == |due|
        invariant forall n :: 0 <= n < |ids| ==> ids[n] in due && ids[n] !in left
        invariant forall m, n :: 0 <= m < n < |ids| ==> ids[m] != ids[n]
        invariant forall m, n :: 0 <= m < n < |ids| ==> rows[ids[m]].createdAt <= rows[ids[n]].createdAt
        invariant forall n, id :: 0 <= n < |ids| && id in left ==> rows[ids[n]].createdAt <= rows[id].createdAt
        invariant forall id :: id in due ==> id in left || id in ids
        decreases left
      {
        var next := Oldest(left);
        ids := ids + [next];
        left := left - {next};
      }
    }

    /** One atomic statement leases the rows it returns: the oldest due ones, up to `limit`, and no other. */
    method DrainDue(now: int, limit: nat) returns (claimed: seq<string>)
      modifies this
      ensures OldestFirst(old(rows), Due(old(rows), claimant, now), limit, claimed)
      ensures rows == Leased(old(rows), claimed, claimant, now, leaseMs)
    {
      claimed := TakeOldest(Due(rows, claimant, now), limit);
      rows := map id | id in rows :: if id in claimed then Claim(rows[id], claimant, now, leaseMs) else rows[id];
    }

    method FetchBytes(id: string) returns (bytes: Option<Bytes>)
      ensures bytes == if id in rows then rows[id].bytes else None
    {
      bytes := if id in rows then rows[id].bytes else None;
    }

    method PersistUpload(id: string, up: UploadResult, now: int)
      modifies this
      ensures rows == Updated(old(rows), id, r => StagedTable.PersistUpload(r, up, now))
    {
      if id in rows {
        rows := rows[id := StagedTable.PersistUpload(rows[id], up, now)];
      }
    }

    method PersistStore(id: string, digest: string, now: int)
      modifies this
      ensures rows == Updated(old(rows), id, r => StagedTable.PersistStore(r, digest, now))
    {
      if id in rows {
        rows := rows[id := StagedTable.PersistStore(rows[id], digest, now)];
      }
    }

    method MarkLedgered(id: string)
      modifies this
      ensures rows == Updated(old(rows), id, r => StagedTable.MarkLedgered(r))
    {
      if id in rows {
        rows := rows[id := StagedTable.MarkLedgered(rows[id])];
      }
    }

    method MarkReturned(id: string, now: int)
      modifies this
      ensures rows == Updated(old(rows), id, r => StagedTable.MarkReturned(r, now))
    {
      if id in rows {
        rows := rows[id := StagedTable.MarkReturned(rows[id], now)];
      }
    }

    method FreeBytes(id: string, now: int)
      modifies this
      ensures rows == Updated(old(rows), id, r => StagedTable.FreeBytes(r, now))
    {
      if id in rows {
        rows := rows[id := StagedTable.FreeBytes(rows[id], now)];
      }
    }

    method MarkDone(id: string, now: int)
      modifies this
      ensures rows == Updated(old(rows), id, r => StagedTable.MarkDone(r, now))
    {
      if id in rows {
        rows := rows[id := StagedTable.MarkDone(rows[id], now)];
      }
    }

    method MarkDead(id: string, error: string, now: int)
      modifies this
      ensures rows == Updated(old(rows), id, r => StagedTable.MarkDead(r, error, now))
    {
      if id in rows {
        rows := rows[id := StagedTable.MarkDead(rows[id], error, now)];
      }
    }

    method Reschedule(id: string, attempts: int, nextAttemptAt: int, error: string, now: int)
      modifies this
      ensures rows == Updated(old(rows), id, r => StagedTable.Reschedule(r, attempts, nextAttemptAt, error, now))
    {
      if id in rows {
        rows := rows[id := StagedTable.Reschedule(rows[id], attempts, nextAttemptAt, error, now)];
      }
    }

    /** Completed stores the ledger has not recorded, oldest first. */
    method PendingLedgerRows(limit: nat) returns (pending: seq<string>)
      ensures OldestFirst(rows, AwaitingLedger(rows), limit, pending)
    {
      pending := TakeOldest(AwaitingLedger(rows), limit);
    }

    method ExpireDue(now: int) returns (expired: nat)
      modifies this
      ensures rows == ExpiredRows(old(rows), PastDue(old(rows), now), now)
      ensures expired == |PastDue(old(rows), now)|
      // only active rows whose own deadline is before `now`
      ensures rows.Keys == old(rows).Keys
      ensures forall id :: id in rows ==>
        var r := old(rows)[id];
        rows[id] == if r.state == Active && r.deadline.Some? && r.deadline.value < now
                    then r.(state := Expired, bytes := None, updatedAt := now) else r
    {
      expired := |PastDue(rows, now)|;
      rows := map id | id in rows :: if PastDeadline(rows[id], now) then Expire(rows[id], now) else rows[id];
    }

    method ExpireUnreceived(cutoff: int, now: int) returns (expired: set<string>)
      modifies this
      ensures rows == ExpiredRows(old(rows), Orphans(old(rows), cutoff), now)
      ensures expired == Orphans(old(rows), cutoff)
      // only active rows the event never reached, without a deadline and created before `cutoff`
      ensures rows.Keys == old(rows).Keys
      ensures forall id :: id in rows ==>
        var r := old(rows)[id];
        rows[id] == if r.state == Active && !r.received && r.deadline.None? && r.createdAt < cutoff
                    then r.(state := Expired, bytes := None, updatedAt := now) else r
    {
      expired := Orphans(rows, cutoff);
      rows := map id | id in rows :: if Orphaned(rows[id], cutoff) then Expire(rows[id], now) else rows[id];
    }

    method PurgeTerminal(cutoff: int) returns (purged: nat)
      modifies this
      ensures rows == old(rows) - Retired(old(rows), cutoff)
      ensures purged == |Retired(old(rows), cutoff)|
      // only settled rows last touched before `cutoff` whose store, if any, the ledger has
      ensures forall id :: id in rows ==> id in old(rows) && rows[id] == old(rows)[id]
      ensures forall id :: id in old(rows) ==>
        var r := old(rows)[id];
        id !in rows <==> r.state in {Done, Dead, Expired} && r.updatedAt < cutoff && (r.storeDigest.Some? ==> r.ledgered)
    {
      var gone := Retired(rows, cutoff);
      rows := rows - gone;
      purged := |gone|;
    }
  }
}
