/** The staged_intent table: one row per intent, and what each SQL statement does to a row. */
module StagedTable {
  import opened Wrappers

  type Bytes = seq<Byte>

  datatype RowState = Active | Done | Dead | Expired

  /** walrus_object_id, walrus_blob_id and end_epoch: three columns, one statement writes them all. */
  datatype UploadResult = UploadResult(walrusObjectId: string, walrusBlobId: string, endEpoch: int)

  datatype Row = Row(
    committedBlobId: Option<string>, size: Option<nat>, deadline: Option<int>, srcEid: Option<int>,
    received: bool, deliveryDigest: Option<string>, bytes: Option<Bytes>, blobId: Option<string>,
    upload: Option<UploadResult>, storageEpochs: Option<int>,
    storeDigest: Option<string>, returned: bool,
    state: RowState, attempts: int, nextAttemptAt: int, lastError: Option<string>,
    createdAt: int, updatedAt: int, claimedBy: Option<string>, leaseExpiresAt: Option<int>,
    appId: Option<string>, storedAt: Option<int>, ledgered: bool, bytesRecoveryAt: Option<int>)

  type Table = map<string, Row>

  datatype StagedBytes = StagedBytes(bytes: Bytes, blobId: string, size: nat, appId: Option<string>, deadline: Option<int>)

  datatype ReceivedDetails = ReceivedDetails(
    srcEid: int, committedBlobId: string, deadline: int, deliveryDigest: Option<string>, storageEpochs: Option<int>)

  datatype UpsertOutcome = Accepted | Backpressure | Terminal

  /** A row with every column at its default, inserted at `now`. */
  function NewRow(now: int): Row {
    Row(None, None, None, None, false, None, None, None, None, None, None, false,
        Active, 0, now, None, now, now, None, None, None, None, false, None)
  }

  // ---------- admission and receipt ----------

  function WithBytes(r: Row, blob: StagedBytes): Row {
    r.(bytes := Some(blob.bytes), blobId := Some(blob.blobId), size := Some(blob.size),
       appId := blob.appId.Or(r.appId), deadline := r.deadline.Or(blob.deadline))
  }

  /** INSERT ... ON CONFLICT DO UPDATE ... WHERE state = 'active', once the cap admits the write. */
  function Upsert(r: Option<Row>, blob: StagedBytes, now: int): Option<Row> {
    match r
    case None => Some(WithBytes(NewRow(now), blob))
    case Some(row) => if row.state == Active then Some(WithBytes(row, blob).(updatedAt := now)) else r
  }

  function WithReceived(r: Row, d: ReceivedDetails): Row {
    r.(received := true, srcEid := Some(d.srcEid), committedBlobId := Some(d.committedBlobId),
       deadline := Some(d.deadline), deliveryDigest := d.deliveryDigest.Or(r.deliveryDigest),
       storageEpochs := d.storageEpochs.Or(r.storageEpochs))
  }

  function Receive(r: Option<Row>, d: ReceivedDetails, now: int): Option<Row> {
    match r
    case None => Some(WithReceived(NewRow(now), d))
    case Some(row) => if row.state == Active then Some(WithReceived(row, d).(updatedAt := now)) else r
  }

  // ---------- byte recovery ----------

  predicate NeedsBytes(r: Row) {
    r.state == Active && r.received && r.bytes.None? && r.committedBlobId.Some?
    && r.upload.None? && r.storeDigest.None?
  }

  predicate RecoveryDue(r: Row, now: int, graceMs: int) {
    && NeedsBytes(r)
    && (r.deadline.None? || r.deadline.value > now)
    && r.bytesRecoveryAt.GetOr(r.createdAt + graceMs) <= now
  }

  function BackOffRecovery(r: Row, nextAt: int, now: int): Row {
    if r.state == Active then r.(bytesRecoveryAt := Some(nextAt), updatedAt := now) else r
  }

  // ---------- the claim lease ----------

  /** Rows a claim may act on, whatever the clock and the lease say. */
  predicate Actionable(r: Row) {
    r.state == Active && r.received && (r.bytes.Some? || r.upload.Some?)
  }

  predicate LeaseFree(r: Row, claimant: string, now: int) {
    r.claimedBy.None? || r.claimedBy == Some(claimant) || (r.leaseExpiresAt.Some? && r.leaseExpiresAt.value < now)
  }

  predicate Claimable(r: Row, claimant: string, now: int) {
    Actionable(r) && r.nextAttemptAt <= now && LeaseFree(r, claimant, now)
  }

  function Claim(r: Row, claimant: string, now: int, leaseMs: int): Row {
    r.(claimedBy := Some(claimant), leaseExpiresAt := Some(now + leaseMs), updatedAt := now)
  }

  // ---------- step results ----------

  function PersistUpload(r: Row, up: UploadResult, now: int): Row {
    r.(upload := Some(up), updatedAt := now)
  }

  function PersistStore(r: Row, digest: string, now: int): Row {
    r.(storeDigest := Some(digest), storedAt := Some(now), updatedAt := now)
  }

  function MarkLedgered(r: Row): Row {
    r.(ledgered := true)
  }

  function MarkReturned(r: Row, now: int): Row {
    r.(returned := true, updatedAt := now)
  }

  function FreeBytes(r: Row, now: int): Row {
    r.(bytes := None, updatedAt := now)
  }

  // ---------- terminal transitions and retry ----------

  function MarkDone(r: Row, now: int): Row {
    r.(state := Done, bytes := None, updatedAt := now)
  }

  function MarkDead(r: Row, error: string, now: int): Row {
    r.(state := Dead, bytes := None, lastError := Some(error), updatedAt := now)
  }

  function Reschedule(r: Row, attempts: int, nextAttemptAt: int, error: string, now: int): Row {
    r.(attempts := attempts, nextAttemptAt := nextAttemptAt, lastError := Some(error), updatedAt := now,
       claimedBy := None, leaseExpiresAt := None)
  }

  // ---------- the reaper's statements ----------

  predicate PastDeadline(r: Row, now: int) {
    r.state == Active && r.deadline.Some? && r.deadline.value < now
  }

  predicate Orphaned(r: Row, cutoff: int) {
    r.state == Active && !r.received && r.deadline.None? && r.createdAt < cutoff
  }

  function Expire(r: Row, now: int): Row {
    r.(state := Expired, bytes := None, updatedAt := now)
  }

  predicate Purgeable(r: Row, cutoff: int) {
    r.state != Active && r.updatedAt < cutoff && (r.storeDigest.None? || r.ledgered)
  }

  predicate PendingLedger(r: Row) {
    r.storeDigest.Some? && !r.ledgered
  }

  // ---------- rows in the table ----------

  function Get(t: Table, id: string): Option<Row> {
    if id in t then Some(t[id]) else None
  }

  function Put(t: Table, id: string, r: Option<Row>): Table {
    if r.Some? then t[id := r.value] else t - {id}
  }

  lemma PutGet(t: Table, id: string, r: Option<Row>, other: string)
    ensures Get(Put(t, id, r), other) == if other == id then r else Get(t, other)
  {
  }
}
