/**
  One digest per intent. Two attempts that both started before the digest was persisted may write two, the second being
  the "already recorded" marker; every other overlap is harmless.
 */
module IntentDigest {
  import opened Wrappers
  import opened StagedTable
  import opened OpsLedger
  import opened IntentProtocol
  import opened IntentSafety
  import opened IntentOrder

  function RowDigest(i: Intent): Option<string> {
    if i.row.Some? then i.row.value.storeDigest else None
  }

  /**
    A working attempt either may still record, and then the row has no digest, or holds the row's digest, unless a purge
    took the row from under it.
   */
  predicate HoldsDigest(a: Attempt, d: Option<string>, cut: bool) {
    && (Between(a.pc, 6, 7) ==> a.row.storeDigest.None?)
    && (MayRecord(a) ==> d.None?)
    && (!cut && Working(a) && !MayRecord(a) ==> d.Some? && a.digest == d)
  }

  predicate OneRecorder(s: seq<Attempt>) {
    forall j, k :: 0 <= j < k < |s| ==> !(MayRecord(s[j]) && MayRecord(s[k]))
  }

  /** Until the ledger has the store, the row still holds the first digest it was given. */
  predicate FirstKept(i: Intent) {
    i.log.firstDigest.Some? && i.entry.None? ==> RowDigest(i) == i.log.firstDigest
  }

  predicate Recorded(i: Intent) {
    && OneRecorder(i.attempts) && FirstKept(i)
    && (forall k :: 0 <= k < |i.attempts| ==> HoldsDigest(i.attempts[k], RowDigest(i), i.log.cut))
  }

  /** The row keeps its digest, and the attempt that moves does not become a recorder. */
  lemma MoveRecorded(i: Intent, j: Intent, k: nat)
    requires Recorded(i) && k < |i.attempts| == |j.attempts| && j.attempts == i.attempts[k := j.attempts[k]]
    requires RowDigest(j) == RowDigest(i) && j.log.firstDigest == i.log.firstDigest && (i.entry.Some? ==> j.entry.Some?)
    requires j.log.cut == i.log.cut
    requires MayRecord(j.attempts[k]) ==> MayRecord(i.attempts[k])
    requires HoldsDigest(j.attempts[k], RowDigest(i), i.log.cut)
    ensures Recorded(j)
  {
  }

  lemma CheckHoldsDigest(c: Config, a: Attempt, p: Check, d: Option<string>, cut: bool)
    requires CheckReady(a, p) && HoldsDigest(a, d, cut)
    ensures CheckOutcome(c, a, p).Go? ==>
      HoldsDigest(CheckOutcome(c, a, p).a, d, cut) && (MayRecord(CheckOutcome(c, a, p).a) ==> MayRecord(a))
  {
  }

  lemma ConcludeRecorded(i: Intent, k: nat, result: CheckResult, now: int)
    requires Recorded(i) && k < |i.attempts|
    requires result.Go? ==> HoldsDigest(result.a, RowDigest(i), i.log.cut) && (MayRecord(result.a) ==> MayRecord(i.attempts[k]))
    ensures Recorded(Conclude(i, k, result, now))
  {
    MoveRecorded(i, Conclude(i, k, result, now), k);
  }

  /** The only recorder persists its digest: no other attempt was working past that point. */
  lemma PersistRecorded(c: Config, i: Intent, k: nat, now: int)
    requires Recorded(i) && (!i.log.cut ==> InOrder(i)) && k < |i.attempts| && RegisterReady(i, i.attempts[k], DoPersistStore)
    ensures Recorded(DigestPersisted(c, i, k, now))
  {
    var j := DigestPersisted(c, i, k, now);
    assert MayRecord(i.attempts[k]);
    forall n | 0 <= n < |j.attempts| ensures HoldsDigest(j.attempts[n], RowDigest(j), j.log.cut) {
      if n != k { assert !MayRecord(i.attempts[n]); }
    }
  }

  lemma ExternalRecorded(c: Config, i: Intent, o: Outside, now: int)
    requires Recorded(i) && (!i.log.cut ==> InOrder(i)) && TablesAgree(i)
    requires ExternalReady(i, o, now)
    ensures Recorded(ApplyExternal(i, o, now))
  {
  }

  lemma ClaimRecorded(c: Config, i: Intent, proc: string, leaseMs: int, start: Option<IntentCommitment>, now: int)
    requires Recorded(i) && ClaimReady(i, proc, start, now) && !ApplyClaim(i, proc, leaseMs, start, now).log.recordRaced
    ensures Recorded(ApplyClaim(i, proc, leaseMs, start, now))
  {
  }

  lemma CheckRecorded(c: Config, i: Intent, k: nat, p: Check, now: int)
    requires Recorded(i) && k < |i.attempts| && CheckReady(i.attempts[k], p)
    ensures Recorded(ApplyCheck(c, i, k, p, now))
  {
    CheckHoldsDigest(c, i.attempts[k], p, RowDigest(i), i.log.cut);
    ConcludeRecorded(i, k, CheckOutcome(c, i.attempts[k], p), now);
  }

  lemma BuyRecorded(c: Config, i: Intent, k: nat, b: Buy, now: int)
    requires Recorded(i) && k < |i.attempts| && BuyReady(i.attempts[k], b)
    ensures Recorded(ApplyBuy(c, i, k, b, now))
  {
    match b
    case DoFetch => MoveRecorded(i, Fetched(i, k), k);
    case DoUpload(up) => MoveRecorded(i, Uploaded(i, k, up), k);
    case DoPersistUpload => MoveRecorded(i, UploadPersisted(c, i, k, now), k);
  }

  lemma LedgerRecorded(c: Config, i: Intent, k: nat, g: Register, now: int)
    requires Recorded(i) && k < |i.attempts| && RegisterReady(i, i.attempts[k], g) && (g.DoRecord? || g.DoMarkLedgered?)
    ensures Recorded(ApplyRegister(c, i, k, g, now))
  {
    MoveRecorded(i, ApplyRegister(c, i, k, g, now), k);
  }

  lemma RegisterRecorded(c: Config, i: Intent, k: nat, g: Register, now: int)
    requires Recorded(i) && (!i.log.cut ==> InOrder(i)) && k < |i.attempts| && RegisterReady(i, i.attempts[k], g)
    ensures Recorded(ApplyRegister(c, i, k, g, now))
  {
    match g
    case DoExecute(outcome) => MoveRecorded(i, Executed(i, k, outcome), k);
    case DoPersistStore => PersistRecorded(c, i, k, now);
    case _ => LedgerRecorded(c, i, k, g, now);
  }

  lemma SendRecorded(i: Intent, k: nat, landed: bool, ok: bool)
    requires Recorded(i) && k < |i.attempts| && DeliverReady(i.attempts[k], DoSend(landed, ok))
    ensures Recorded(SendTried(i, k, landed, ok))
  {
    MoveRecorded(i, SendTried(i, k, landed, ok), k);
  }

  lemma ConfirmRecorded(i: Intent, k: nat, landed: bool, ok: bool)
    requires Recorded(i) && k < |i.attempts| && DeliverReady(i.attempts[k], DoConfirm(landed, ok))
    ensures Recorded(ConfirmTried(i, k, landed, ok))
  {
    MoveRecorded(i, ConfirmTried(i, k, landed, ok), k);
  }

  lemma FinishRecorded(i: Intent, k: nat, now: int)
    requires Recorded(i) && k < |i.attempts| && DeliverReady(i.attempts[k], DoFinish)
    ensures Recorded(ApplyDeliver(i, k, DoFinish, now))
  {
    MoveRecorded(i, ApplyDeliver(i, k, DoFinish, now), k);
  }

  lemma QuietDeliveryRecorded(i: Intent, k: nat, d: Deliver, now: int)
    requires Recorded(i) && k < |i.attempts| && DeliverReady(i.attempts[k], d)
    requires d.DoFreeBytes? || d.DoMarkReturned?
    ensures Recorded(ApplyDeliver(i, k, d, now))
  {
    MoveRecorded(i, ApplyDeliver(i, k, d, now), k);
  }

  lemma DeliverRecorded(c: Config, i: Intent, k: nat, d: Deliver, now: int)
    requires Recorded(i) && k < |i.attempts| && DeliverReady(i.attempts[k], d)
    ensures Recorded(ApplyDeliver(i, k, d, now))
  {
    match d
    case DoSend(landed, ok) => SendRecorded(i, k, landed, ok);
    case DoConfirm(landed, ok) => ConfirmRecorded(i, k, landed, ok);
    case DoBook => MoveRecorded(i, BookCompletion(i, k, now), k);
    case DoFinish => FinishRecorded(i, k, now);
    case _ => QuietDeliveryRecorded(i, k, d, now);
  }

  lemma SettleRecorded(c: Config, i: Intent, k: nat, nextAt: int, error: string, now: int)
    requires Recorded(i) && k < |i.attempts| && i.attempts[k].settle.Pending?
    ensures Recorded(SettleAttempt(c, i, k, nextAt, error, now))
  {
    MoveRecorded(i, SettleAttempt(c, i, k, nextAt, error, now), k);
  }

  lemma ControlRecorded(c: Config, i: Intent, k: nat, r: Control, now: int)
    requires Recorded(i) && k < |i.attempts| && ControlReady(i.attempts[k], r)
    ensures Recorded(ApplyControl(c, i, k, r, now))
  {
    match r
    case SettleRow(nextAt, error) => SettleRecorded(c, i, k, nextAt, error, now);
    case _ => MoveRecorded(i, ApplyControl(c, i, k, r, now), k);
  }

  lemma SweepRecorded(c: Config, i: Intent, f: Backfill, now: int)
    requires Recorded(i) && SweepReady(i, f)
    ensures Recorded(ApplySweep(c, i, f, now))
  {
  }

  /** No digest is ever written over another. */
  lemma StepRecorded(c: Config, i: Intent, st: Step)
    requires Ready(i, st) && Recorded(i) && (!i.log.cut ==> InOrder(i)) && TablesAgree(i)
    requires !Apply(c, i, st).log.recordRaced
    ensures Recorded(Apply(c, i, st))
  {
    match st
    case External(o, now) => ExternalRecorded(c, i, o, now);
    case ClaimRow(proc, leaseMs, start, now) => ClaimRecorded(c, i, proc, leaseMs, start, now);
    case Checking(k, p, now) => CheckRecorded(c, i, k, p, now);
    case Buying(k, b, now) => BuyRecorded(c, i, k, b, now);
    case Registering(k, g, now) => RegisterRecorded(c, i, k, g, now);
    case Delivering(k, d, now) => DeliverRecorded(c, i, k, d, now);
    case Controlling(k, r, now) => ControlRecorded(c, i, k, r, now);
    case Sweeping(f, now) => SweepRecorded(c, i, f, now);
  }

  // ---------- the ledger and the backfill hold the row's digest ----------

  /** What the ledger keeps of a store digest: the marker becomes null. */
  function LedgerDigest(d: Option<string>): Option<string> {
    if d == Some(ALREADY_RECORDED) then None else d
  }

  predicate JobRemembers(job: Job, d: Option<string>) {
    d.Some? && job.row.storeDigest == d
  }

  predicate JobsRemember(jobs: seq<Job>, d: Option<string>) {
    forall n :: 0 <= n < |jobs| ==> JobRemembers(jobs[n], d)
  }

  /** Everything that remembers a digest remembers this one. */
  predicate AllRemember(i: Intent, d: Option<string>) {
    && i.log.firstDigest == d
    && (i.entry.Some? ==> d.Some? && i.entry.value.storeDigest == LedgerDigest(d))
    && JobsRemember(i.jobs, d)
  }

  predicate OneMemory(i: Intent) {
    AllRemember(i, RowDigest(i))
  }

  predicate SameMemory(i: Intent, j: Intent) {
    RowDigest(j) == RowDigest(i) && j.log.firstDigest == i.log.firstDigest && j.entry == i.entry && j.jobs == i.jobs
  }

  lemma SameMemoryKept(i: Intent, j: Intent)
    requires OneMemory(i) && SameMemory(i, j)
    ensures OneMemory(j)
  {
  }

  lemma ExternalMemory(c: Config, i: Intent, o: Outside, now: int)
    requires OneMemory(i) && InOrder(i) && ExternalReady(i, o, now) && ApplyExternal(i, o, now).log.dropped == 0
    ensures OneMemory(ApplyExternal(i, o, now))
  {
    SameMemoryKept(i, ApplyExternal(i, o, now));
  }

  lemma ClaimMemory(i: Intent, proc: string, leaseMs: int, start: Option<IntentCommitment>, now: int)
    requires OneMemory(i) && ClaimReady(i, proc, start, now)
    ensures OneMemory(ApplyClaim(i, proc, leaseMs, start, now))
  {
    SameMemoryKept(i, ApplyClaim(i, proc, leaseMs, start, now));
  }

  lemma BuyMemory(c: Config, i: Intent, k: nat, b: Buy, now: int)
    requires OneMemory(i) && k < |i.attempts| && BuyReady(i.attempts[k], b)
    ensures OneMemory(ApplyBuy(c, i, k, b, now))
  {
    SameMemoryKept(i, ApplyBuy(c, i, k, b, now));
  }

  lemma ConcludeMemory(i: Intent, k: nat, result: CheckResult, now: int)
    requires OneMemory(i) && k < |i.attempts|
    ensures OneMemory(Conclude(i, k, result, now))
  {
    SameMemoryKept(i, Conclude(i, k, result, now));
  }

  lemma PersistMemory(c: Config, i: Intent, k: nat, now: int)
    requires OneMemory(i) && Recorded(i) && !i.log.cut && InOrder(i) && k < |i.attempts| && RegisterReady(i, i.attempts[k], DoPersistStore)
    ensures OneMemory(DigestPersisted(c, i, k, now))
  {
    assert MayRecord(i.attempts[k]) && RowDigest(i).None?;
  }

  lemma RecordMemory(c: Config, i: Intent, k: nat, landed: bool, ok: bool, now: int)
    requires OneMemory(i) && Recorded(i) && !i.log.cut && k < |i.attempts| && RegisterReady(i, i.attempts[k], DoRecord(landed, ok))
    ensures OneMemory(ApplyRegister(c, i, k, DoRecord(landed, ok), now))
  {
    assert Working(i.attempts[k]) && !MayRecord(i.attempts[k]);
  }

  lemma RegisterMemory(c: Config, i: Intent, k: nat, g: Register, now: int)
    requires OneMemory(i) && Recorded(i) && !i.log.cut && InOrder(i) && k < |i.attempts| && RegisterReady(i, i.attempts[k], g)
    ensures OneMemory(ApplyRegister(c, i, k, g, now))
  {
    match g
    case DoPersistStore => PersistMemory(c, i, k, now);
    case DoRecord(landed, ok) => RecordMemory(c, i, k, landed, ok, now);
    case DoExecute(outcome) => SameMemoryKept(i, Executed(i, k, outcome));
    case DoMarkLedgered(_) => SameMemoryKept(i, ApplyRegister(c, i, k, g, now));
  }

  lemma DeliverMemory(c: Config, i: Intent, k: nat, d: Deliver, now: int)
    requires OneMemory(i) && k < |i.attempts| && DeliverReady(i.attempts[k], d)
    ensures OneMemory(ApplyDeliver(i, k, d, now))
  {
    SameMemoryKept(i, ApplyDeliver(i, k, d, now));
  }

  lemma ControlMemory(c: Config, i: Intent, k: nat, r: Control, now: int)
    requires OneMemory(i) && k < |i.attempts| && ControlReady(i.attempts[k], r)
    ensures OneMemory(ApplyControl(c, i, k, r, now))
  {
    SameMemoryKept(i, ApplyControl(c, i, k, r, now));
  }

  lemma SweepMemory(c: Config, i: Intent, f: Backfill, now: int)
    requires OneMemory(i) && SweepReady(i, f)
    ensures OneMemory(ApplySweep(c, i, f, now))
  {
  }

  /** Until a row with an object is purged, every step keeps row, ledger and backfill on the first digest. */
  lemma StepMemory(c: Config, i: Intent, st: Step)
    requires Ready(i, st) && OneMemory(i) && Recorded(i) && InOrder(i)
    requires !i.log.cut && Apply(c, i, st).log.dropped == 0
    ensures OneMemory(Apply(c, i, st))
  {
    match st
    case External(o, now) => ExternalMemory(c, i, o, now);
    case ClaimRow(proc, leaseMs, start, now) => ClaimMemory(i, proc, leaseMs, start, now);
    case Checking(k, p, now) => ConcludeMemory(i, k, CheckOutcome(c, i.attempts[k], p), now);
    case Buying(k, b, now) => BuyMemory(c, i, k, b, now);
    case Registering(k, g, now) => RegisterMemory(c, i, k, g, now);
    case Delivering(k, d, now) => DeliverMemory(c, i, k, d, now);
    case Controlling(k, r, now) => ControlMemory(c, i, k, r, now);
    case Sweeping(f, now) => SweepMemory(c, i, f, now);
  }
}
