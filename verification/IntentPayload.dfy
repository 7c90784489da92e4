/** What is uploaded is what was committed and priced: every buyer's row matched, and so do the bytes of every upload. */
module IntentPayload {
  import opened Wrappers
  import opened StagedTable
  import opened IntentProtocol

  /** The bytes are of the committed size, and their blob id is the committed one. */
  predicate AsCommitted(c: Config, id: string, bytes: Bytes) {
    |bytes| == c.committedSize(id) && c.blobIdMatches(c.blobIdOf(bytes), c.committedRef(id))
  }

  /** Ingest is the only writer of bytes, and writes their size and blob id with them. */
  predicate RowSized(c: Config, id: string, r: Option<Row>) {
    r.Some? && r.value.bytes.Some? ==>
      && AsCommitted(c, id, r.value.bytes.value)
      && r.value.size == Some(c.committedSize(id)) && r.value.blobId == Some(c.blobIdOf(r.value.bytes.value))
  }

  predicate AttemptSized(c: Config, id: string, a: Attempt) {
    && (a.row.upload.None? ==> a.row.size == Some(c.committedSize(id)))
    && (Between(a.pc, 3, 5) ==> a.row.upload.None?)
    && (a.pc.Uploading? ==> AsCommitted(c, id, a.pc.payload))
    && (Between(a.pc, 1, 15) ==> BlobMatches(c, a.row, a.commitment))
    && (Between(a.pc, 2, 15) && a.row.storageEpochs.Some? ==> a.committed == a.row.storageEpochs)
  }

  /** The upload's attempt started from a matching row without an object, and bought for that row. */
  predicate BoughtBy(c: Config, id: string, a: Attempt, s: Spend) {
    && a.row.upload.None? && BlobMatches(c, a.row, a.commitment)
    && a.row.size == Some(s.size) && s.size == c.committedSize(id)
    && (a.row.storageEpochs.Some? ==> s.committed == a.row.storageEpochs)
  }

  predicate SpendSized(c: Config, i: Intent, s: Spend) {
    AsCommitted(c, i.id, s.payload) && s.buyer < |i.attempts| && BoughtBy(c, i.id, i.attempts[s.buyer], s)
  }

  predicate Sized(c: Config, i: Intent) {
    && RowSized(c, i.id, i.row)
    && (forall k :: 0 <= k < |i.attempts| ==> AttemptSized(c, i.id, i.attempts[k]))
    && (forall n :: 0 <= n < |i.log.spends| ==> SpendSized(c, i, i.log.spends[n]))
  }

  /** What the attempt was started with stays. */
  predicate SameOrder(a: Attempt, next: Attempt) {
    next.row == a.row && next.commitment == a.commitment
  }

  /** One attempt moves; the row gains no bytes. */
  lemma MoveSized(c: Config, i: Intent, j: Intent, k: nat)
    requires Sized(c, i) && k < |i.attempts| == |j.attempts| && j.attempts == i.attempts[k := j.attempts[k]]
    requires j.id == i.id && j.log.spends == i.log.spends && RowSized(c, i.id, j.row)
    requires AttemptSized(c, i.id, j.attempts[k]) && SameOrder(i.attempts[k], j.attempts[k])
    ensures Sized(c, j)
  {
  }

  lemma CheckSized(c: Config, id: string, a: Attempt, p: Check)
    requires AttemptSized(c, id, a) && CheckReady(a, p)
    ensures CheckOutcome(c, a, p).Go? ==> AttemptSized(c, id, CheckOutcome(c, a, p).a) && SameOrder(a, CheckOutcome(c, a, p).a)
  {
  }

  lemma ConcludeSized(c: Config, i: Intent, k: nat, result: CheckResult, now: int)
    requires Sized(c, i) && k < |i.attempts|
    requires result.Go? ==> AttemptSized(c, i.id, result.a) && SameOrder(i.attempts[k], result.a)
    ensures Sized(c, Conclude(i, k, result, now))
  {
    MoveSized(c, i, Conclude(i, k, result, now), k);
  }

  lemma ExternalSized(c: Config, i: Intent, o: Outside, now: int)
    requires Sized(c, i) && ExternalReady(i, o, now) && (o.Ingest? ==> Ingestible(c, i.id, o.blob))
    ensures Sized(c, ApplyExternal(i, o, now))
  {
  }

  lemma ClaimSized(c: Config, i: Intent, proc: string, leaseMs: int, start: Option<IntentCommitment>, now: int)
    requires Sized(c, i) && ClaimReady(i, proc, start, now)
    ensures Sized(c, ApplyClaim(i, proc, leaseMs, start, now))
  {
  }

  lemma UploadSized(c: Config, i: Intent, k: nat, up: UploadResult)
    requires Sized(c, i) && k < |i.attempts| && BuyReady(i.attempts[k], DoUpload(up))
    ensures Sized(c, Uploaded(i, k, up))
  {
    assert AttemptSized(c, i.id, i.attempts[k]);
  }

  lemma BuySized(c: Config, i: Intent, k: nat, b: Buy, now: int)
    requires Sized(c, i) && k < |i.attempts| && BuyReady(i.attempts[k], b)
    ensures Sized(c, ApplyBuy(c, i, k, b, now))
  {
    match b
    case DoFetch => MoveSized(c, i, Fetched(i, k), k);
    case DoUpload(up) => UploadSized(c, i, k, up);
    case DoPersistUpload => MoveSized(c, i, UploadPersisted(c, i, k, now), k);
  }

  lemma ExecuteSized(c: Config, i: Intent, k: nat, outcome: Execution)
    requires Sized(c, i) && k < |i.attempts| && RegisterReady(i, i.attempts[k], DoExecute(outcome))
    ensures Sized(c, Executed(i, k, outcome))
  {
    MoveSized(c, i, Executed(i, k, outcome), k);
  }

  lemma DigestSized(c: Config, i: Intent, k: nat, now: int)
    requires Sized(c, i) && k < |i.attempts| && RegisterReady(i, i.attempts[k], DoPersistStore)
    ensures Sized(c, DigestPersisted(c, i, k, now))
  {
    MoveSized(c, i, DigestPersisted(c, i, k, now), k);
  }

  lemma LedgerSized(c: Config, i: Intent, k: nat, g: Register, now: int)
    requires Sized(c, i) && k < |i.attempts| && RegisterReady(i, i.attempts[k], g) && (g.DoRecord? || g.DoMarkLedgered?)
    ensures Sized(c, ApplyRegister(c, i, k, g, now))
  {
    MoveSized(c, i, ApplyRegister(c, i, k, g, now), k);
  }

  lemma RegisterSized(c: Config, i: Intent, k: nat, g: Register, now: int)
    requires Sized(c, i) && k < |i.attempts| && RegisterReady(i, i.attempts[k], g)
    ensures Sized(c, ApplyRegister(c, i, k, g, now))
  {
    match g
    case DoExecute(outcome) => ExecuteSized(c, i, k, outcome);
    case DoPersistStore => DigestSized(c, i, k, now);
    case _ => LedgerSized(c, i, k, g, now);
  }

  lemma QuietDeliverySized(c: Config, i: Intent, k: nat, d: Deliver, now: int)
    requires Sized(c, i) && k < |i.attempts| && DeliverReady(i.attempts[k], d)
    requires d.DoFreeBytes? || d.DoMarkReturned? || d.DoFinish?
    ensures Sized(c, ApplyDeliver(i, k, d, now))
  {
    MoveSized(c, i, ApplyDeliver(i, k, d, now), k);
  }

  lemma ProofSized(c: Config, i: Intent, k: nat, d: Deliver, now: int)
    requires Sized(c, i) && k < |i.attempts| && DeliverReady(i.attempts[k], d) && (d.DoSend? || d.DoConfirm?)
    ensures Sized(c, ApplyDeliver(i, k, d, now))
  {
    MoveSized(c, i, ApplyDeliver(i, k, d, now), k);
  }

  lemma DeliverSized(c: Config, i: Intent, k: nat, d: Deliver, now: int)
    requires Sized(c, i) && k < |i.attempts| && DeliverReady(i.attempts[k], d)
    ensures Sized(c, ApplyDeliver(i, k, d, now))
  {
    match d
    case DoSend(landed, ok) => ProofSized(c, i, k, d, now);
    case DoConfirm(landed, ok) => ProofSized(c, i, k, d, now);
    case DoBook => MoveSized(c, i, BookCompletion(i, k, now), k);
    case _ => QuietDeliverySized(c, i, k, d, now);
  }

  lemma ControlSized(c: Config, i: Intent, k: nat, r: Control, now: int)
    requires Sized(c, i) && k < |i.attempts| && ControlReady(i.attempts[k], r)
    ensures Sized(c, ApplyControl(c, i, k, r, now))
  {
    match r
    case SettleRow(nextAt, error) => MoveSized(c, i, SettleAttempt(c, i, k, nextAt, error, now), k);
    case _ => MoveSized(c, i, ApplyControl(c, i, k, r, now), k);
  }

  /** Every step keeps rows, attempts and spends at the committed size, whatever races, crashes and purges. */
  lemma StepSized(c: Config, i: Intent, st: Step)
    requires Enabled(c, i, st) && Sized(c, i)
    ensures Sized(c, Apply(c, i, st))
  {
    match st
    case External(o, now) => ExternalSized(c, i, o, now);
    case ClaimRow(proc, leaseMs, start, now) => ClaimSized(c, i, proc, leaseMs, start, now);
    case Checking(k, p, now) =>
      CheckSized(c, i.id, i.attempts[k], p);
      ConcludeSized(c, i, k, CheckOutcome(c, i.attempts[k], p), now);
    case Buying(k, b, now) => BuySized(c, i, k, b, now);
    case Registering(k, g, now) => RegisterSized(c, i, k, g, now);
    case Delivering(k, d, now) => DeliverSized(c, i, k, d, now);
    case Controlling(k, r, now) => ControlSized(c, i, k, r, now);
    case Sweeping(f, now) =>
  }
}
