/** The durable ops ledger: the entry a completed store leaves, and the append-only table it goes into. */
module OpsLedger {
  import opened Wrappers
  import opened StagedTable

  /** Written to store_digest when Sui reports the intent was recorded by an earlier attempt. */
  const ALREADY_RECORDED := "already-recorded"

  datatype StorageOpEntry = StorageOpEntry(
    intentId: string, srcEid: Option<int>, sender: Option<string>, size: Option<nat>, blobId: Option<string>,
    upload: Option<UploadResult>, appId: Option<string>, network: string, storeDigest: Option<string>, createdAt: int, storedAt: int)

  /** What the caller of recordCompletedStore knows; the row fills in what it leaves out. */
  datatype CompletedStore = CompletedStore(
    row: Row, sender: Option<string>, committedBlobId: Option<string>, upload: Option<UploadResult>, storeDigest: Option<string>)

  function BuildLedgerEntry(id: string, done: CompletedStore, network: string, now: int): StorageOpEntry {
    var row := done.row;
    var digest := done.storeDigest.Or(row.storeDigest);
    var upload := done.upload.Or(row.upload);
    StorageOpEntry(
      id, row.srcEid, done.sender, row.size, done.committedBlobId.Or(row.committedBlobId), upload, row.appId, network,
      if digest == Some(ALREADY_RECORDED) then None else digest,
      row.createdAt, row.storedAt.GetOr(if row.storeDigest.Some? then row.updatedAt else now))
  }

  /** Once its upload and digest are in the row, the entry says the same whichever of the two writers makes it, but for when. */
  lemma WritersAgree(id: string, was: Row, r: Row, sender: Option<string>, committedBlobId: Option<string>, network: string, now: int, later: int)
    requires r.upload.Some? && r.storeDigest.Some?
    requires r.srcEid == was.srcEid && r.size == was.size && r.appId == was.appId && r.createdAt == was.createdAt
    requires r.committedBlobId == was.committedBlobId
    ensures var inline := BuildLedgerEntry(id, CompletedStore(was, sender, committedBlobId.Or(was.committedBlobId), r.upload, r.storeDigest), network, now);
            var swept := BuildLedgerEntry(id, CompletedStore(r, sender, committedBlobId, None, None), network, later);
            inline == swept.(storedAt := inline.storedAt)
  {
  }

  function Unmarked(digest: Option<string>): Option<string> {
    if digest == Some("already-recorded") then None else digest
  }

  /** What an entry names: the intent, its origin, sender, blob, object and digest; the marker is no digest. */
  lemma EntryRecordsTheStore(id: string, done: CompletedStore, network: string, now: int)
    ensures var e, row := BuildLedgerEntry(id, done, network, now), done.row;
            && e.intentId == id && e.sender == done.sender && e.network == network
            && e.srcEid == row.srcEid && e.size == row.size && e.appId == row.appId && e.createdAt == row.createdAt
            && (done.committedBlobId.Some? ==> e.blobId == done.committedBlobId)
            && (done.committedBlobId.None? ==> e.blobId == row.committedBlobId)
            && (done.upload.Some? ==> e.upload == done.upload) && (done.upload.None? ==> e.upload == row.upload)
            && e.storeDigest == Unmarked(if done.storeDigest.Some? then done.storeDigest else row.storeDigest)
            && (row.storedAt.Some? ==> e.storedAt == row.storedAt.value)
            && (row.storedAt.None? ==> e.storedAt == if row.storeDigest.Some? then row.updatedAt else now)
  {
  }

  /** The entry's time of storing is when the digest was persisted, whoever writes it and however late. */
  lemma StoredWhenPersisted(id: string, r: Row, digest: string, at: int, done: CompletedStore, network: string, now: int)
    requires done.row == PersistStore(r, digest, at)
    ensures BuildLedgerEntry(id, done, network, now).storedAt == at
    ensures done.storeDigest.None? && digest != "already-recorded" ==> BuildLedgerEntry(id, done, network, now).storeDigest == Some(digest)
  {
  }
}
