/**
  One object per intent. An attempt that starts while another may still buy breaks this; every other overlap is harmless,
  so the condition is only that no attempt ever started from a row without an object while another could still write one.
 */
module IntentObject {
  import opened Wrappers
  import opened StagedTable
  import opened OpsLedger
  import opened IntentProtocol
  import opened IntentOrder

  function RowUpload(i: Intent): Option<UploadResult> {
    if i.row.Some? then i.row.value.upload else None
  }

  /**
    A working attempt either may still buy, and then the row has no object, or holds the row's object, unless a purge
    took the row from under it.
   */
  predicate Holds(a: Attempt, up: Option<UploadResult>, cut: bool) {
    && (Between(a.pc, 3, 5) ==> a.row.upload.None?)
    && (MayBuy(a) ==> up.None?)
    && (!cut && Working(a) && !MayBuy(a) ==> up.Some? && a.up == up)
  }

  predicate OneBuyer(s: seq<Attempt>) {
    forall j, k :: 0 <= j < k < |s| ==> !(MayBuy(s[j]) && MayBuy(s[k]))
  }

  predicate Owned(i: Intent) {
    && i.log.overwrites == 0
    && OneBuyer(i.attempts)
    && (forall k :: 0 <= k < |i.attempts| ==> Holds(i.attempts[k], RowUpload(i), i.log.cut))
  }

  /** The row keeps its upload, and the attempt that moves does not become a buyer. */
  lemma MoveOwned(i: Intent, j: Intent, k: nat)
    requires Owned(i) && k < |i.attempts| == |j.attempts| && j.attempts == i.attempts[k := j.attempts[k]]
    requires j.log.overwrites == 0 && RowUpload(j) == RowUpload(i) && j.log.cut == i.log.cut
    requires MayBuy(j.attempts[k]) ==> MayBuy(i.attempts[k])
    requires Holds(j.attempts[k], RowUpload(i), i.log.cut)
    ensures Owned(j)
  {
  }

  lemma CheckHolds(c: Config, a: Attempt, p: Check, up: Option<UploadResult>, cut: bool)
    requires CheckReady(a, p) && Holds(a, up, cut)
    ensures CheckOutcome(c, a, p).Go? ==>
      Holds(CheckOutcome(c, a, p).a, up, cut) && (MayBuy(CheckOutcome(c, a, p).a) ==> MayBuy(a))
  {
  }

  lemma ConcludeOwned(i: Intent, k: nat, result: CheckResult, now: int)
    requires Owned(i) && k < |i.attempts|
    requires result.Go? ==> Holds(result.a, RowUpload(i), i.log.cut) && (MayBuy(result.a) ==> MayBuy(i.attempts[k]))
    ensures Owned(Conclude(i, k, result, now))
  {
    MoveOwned(i, Conclude(i, k, result, now), k);
  }

  /** The only buyer persists its object: no other attempt was working, for the row had none. */
  lemma PersistOwned(c: Config, i: Intent, k: nat, now: int)
    requires Owned(i) && (!i.log.cut ==> InOrder(i)) && k < |i.attempts| && BuyReady(i.attempts[k], DoPersistUpload)
    ensures Owned(UploadPersisted(c, i, k, now))
  {
    var j := UploadPersisted(c, i, k, now);
    assert MayBuy(i.attempts[k]);
    forall n | 0 <= n < |j.attempts| ensures Holds(j.attempts[n], RowUpload(j), j.log.cut) {
      if n != k { assert !MayBuy(i.attempts[n]); }
    }
  }

  lemma ExternalOwned(c: Config, i: Intent, o: Outside, now: int)
    requires Owned(i) && (!i.log.cut ==> InOrder(i))
    requires ExternalReady(i, o, now)
    ensures Owned(ApplyExternal(i, o, now))
  {
  }

  lemma ClaimOwned(c: Config, i: Intent, proc: string, leaseMs: int, start: Option<IntentCommitment>, now: int)
    requires Owned(i) && ClaimReady(i, proc, start, now) && !ApplyClaim(i, proc, leaseMs, start, now).log.buyRaced
    ensures Owned(ApplyClaim(i, proc, leaseMs, start, now))
  {
  }

  lemma CheckOwned(c: Config, i: Intent, k: nat, p: Check, now: int)
    requires Owned(i) && k < |i.attempts| && CheckReady(i.attempts[k], p)
    ensures Owned(ApplyCheck(c, i, k, p, now))
  {
    CheckHolds(c, i.attempts[k], p, RowUpload(i), i.log.cut);
    ConcludeOwned(i, k, CheckOutcome(c, i.attempts[k], p), now);
  }

  lemma BuyOwned(c: Config, i: Intent, k: nat, b: Buy, now: int)
    requires Owned(i) && (!i.log.cut ==> InOrder(i)) && k < |i.attempts| && BuyReady(i.attempts[k], b)
    ensures Owned(ApplyBuy(c, i, k, b, now))
  {
    match b
    case DoFetch => MoveOwned(i, Fetched(i, k), k);
    case DoUpload(up) => MoveOwned(i, Uploaded(i, k, up), k);
    case DoPersistUpload => PersistOwned(c, i, k, now);
  }

  lemma ExecuteOwned(i: Intent, k: nat, outcome: Execution)
    requires Owned(i) && k < |i.attempts| && RegisterReady(i, i.attempts[k], DoExecute(outcome))
    ensures Owned(Executed(i, k, outcome))
  {
    MoveOwned(i, Executed(i, k, outcome), k);
  }

  lemma DigestOwned(c: Config, i: Intent, k: nat, now: int)
    requires Owned(i) && k < |i.attempts| && RegisterReady(i, i.attempts[k], DoPersistStore)
    ensures Owned(DigestPersisted(c, i, k, now))
  {
    MoveOwned(i, DigestPersisted(c, i, k, now), k);
  }

  lemma LedgerOwned(c: Config, i: Intent, k: nat, g: Register, now: int)
    requires Owned(i) && k < |i.attempts| && RegisterReady(i, i.attempts[k], g) && (g.DoRecord? || g.DoMarkLedgered?)
    ensures Owned(ApplyRegister(c, i, k, g, now))
  {
    MoveOwned(i, ApplyRegister(c, i, k, g, now), k);
  }

  lemma RegisterOwned(c: Config, i: Intent, k: nat, g: Register, now: int)
    requires Owned(i) && k < |i.attempts| && RegisterReady(i, i.attempts[k], g)
    ensures Owned(ApplyRegister(c, i, k, g, now))
  {
    match g
    case DoExecute(outcome) => ExecuteOwned(i, k, outcome);
    case DoPersistStore => DigestOwned(c, i, k, now);
    case _ => LedgerOwned(c, i, k, g, now);
  }

  lemma SendOwned(i: Intent, k: nat, landed: bool, ok: bool)
    requires Owned(i) && k < |i.attempts| && DeliverReady(i.attempts[k], DoSend(landed, ok))
    ensures Owned(SendTried(i, k, landed, ok))
  {
    MoveOwned(i, SendTried(i, k, landed, ok), k);
  }

  lemma ConfirmOwned(i: Intent, k: nat, landed: bool, ok: bool)
    requires Owned(i) && k < |i.attempts| && DeliverReady(i.attempts[k], DoConfirm(landed, ok))
    ensures Owned(ConfirmTried(i, k, landed, ok))
  {
    MoveOwned(i, ConfirmTried(i, k, landed, ok), k);
  }

  lemma FinishOwned(i: Intent, k: nat, now: int)
    requires Owned(i) && k < |i.attempts| && DeliverReady(i.attempts[k], DoFinish)
    ensures Owned(ApplyDeliver(i, k, DoFinish, now))
  {
    MoveOwned(i, ApplyDeliver(i, k, DoFinish, now), k);
  }

  lemma QuietDeliveryOwned(i: Intent, k: nat, d: Deliver, now: int)
    requires Owned(i) && k < |i.attempts| && DeliverReady(i.attempts[k], d)
    requires d.DoFreeBytes? || d.DoMarkReturned?
    ensures Owned(ApplyDeliver(i, k, d, now))
  {
    MoveOwned(i, ApplyDeliver(i, k, d, now), k);
  }

  lemma DeliverOwned(c: Config, i: Intent, k: nat, d: Deliver, now: int)
    requires Owned(i) && k < |i.attempts| && DeliverReady(i.attempts[k], d)
    ensures Owned(ApplyDeliver(i, k, d, now))
  {
    match d
    case DoSend(landed, ok) => SendOwned(i, k, landed, ok);
    case DoConfirm(landed, ok) => ConfirmOwned(i, k, landed, ok);
    case DoBook => MoveOwned(i, BookCompletion(i, k, now), k);
    case DoFinish => FinishOwned(i, k, now);
    case _ => QuietDeliveryOwned(i, k, d, now);
  }

  lemma SettleOwned(c: Config, i: Intent, k: nat, nextAt: int, error: string, now: int)
    requires Owned(i) && k < |i.attempts| && i.attempts[k].settle.Pending?
    ensures Owned(SettleAttempt(c, i, k, nextAt, error, now))
  {
    MoveOwned(i, SettleAttempt(c, i, k, nextAt, error, now), k);
  }

  lemma ControlOwned(c: Config, i: Intent, k: nat, r: Control, now: int)
    requires Owned(i) && k < |i.attempts| && ControlReady(i.attempts[k], r)
    ensures Owned(ApplyControl(c, i, k, r, now))
  {
    match r
    case SettleRow(nextAt, error) => SettleOwned(c, i, k, nextAt, error, now);
    case _ => MoveOwned(i, ApplyControl(c, i, k, r, now), k);
  }

  lemma SweepOwned(c: Config, i: Intent, f: Backfill, now: int)
    requires Owned(i) && SweepReady(i, f)
    ensures Owned(ApplySweep(c, i, f, now))
  {
  }

  /** No object is ever written over another. */
  lemma StepOwned(c: Config, i: Intent, st: Step)
    requires Ready(i, st) && Owned(i) && (!i.log.cut ==> InOrder(i))
    requires !Apply(c, i, st).log.buyRaced
    ensures Owned(Apply(c, i, st))
  {
    match st
    case External(o, now) => ExternalOwned(c, i, o, now);
    case ClaimRow(proc, leaseMs, start, now) => ClaimOwned(c, i, proc, leaseMs, start, now);
    case Checking(k, p, now) => CheckOwned(c, i, k, p, now);
    case Buying(k, b, now) => BuyOwned(c, i, k, b, now);
    case Registering(k, g, now) => RegisterOwned(c, i, k, g, now);
    case Delivering(k, d, now) => DeliverOwned(c, i, k, d, now);
    case Controlling(k, r, now) => ControlOwned(c, i, k, r, now);
    case Sweeping(f, now) => SweepOwned(c, i, f, now);
  }

  // ---------- Sui, the proofs and the ledger name the row's object ----------

  predicate ProofOf(p: Proof, up: Option<UploadResult>) {
    up.Some? && p == Proof(up.value.walrusBlobId, up.value.endEpoch)
  }

  predicate ProofsOf(proofs: seq<Proof>, up: Option<UploadResult>) {
    forall n :: 0 <= n < |proofs| ==> ProofOf(proofs[n], up)
  }

  predicate JobOf(job: Job, up: Option<UploadResult>) {
    up.Some? && job.row.upload == up
  }

  predicate JobsOf(jobs: seq<Job>, up: Option<UploadResult>) {
    forall n :: 0 <= n < |jobs| ==> JobOf(jobs[n], up)
  }

  /** Everything outside the row that names an object names this one. */
  predicate AllName(i: Intent, up: Option<UploadResult>) {
    && (i.onSui.Some? ==> up.Some? && i.onSui == Some(up.value.walrusObjectId))
    && ProofsOf(i.log.proofs, up)
    && (i.entry.Some? ==> up.Some? && i.entry.value.upload == up)
    && JobsOf(i.jobs, up)
  }

  predicate OneName(i: Intent) {
    AllName(i, RowUpload(i))
  }

  predicate SameNames(i: Intent, j: Intent) {
    RowUpload(j) == RowUpload(i) && j.onSui == i.onSui && j.log.proofs == i.log.proofs && j.entry == i.entry && j.jobs == i.jobs
  }

  lemma SameNamesKept(i: Intent, j: Intent)
    requires OneName(i) && SameNames(i, j)
    ensures OneName(j)
  {
  }

  lemma NamesCarry(i: Intent, j: Intent, up: Option<UploadResult>)
    requires AllName(i, up)
    requires j.onSui == i.onSui && j.log.proofs == i.log.proofs && j.entry == i.entry && j.jobs == i.jobs
    ensures AllName(j, up)
  {
  }

  /** A row without an object: nothing outside names one yet. */
  lemma Unnamed(i: Intent)
    requires OneName(i) && RowUpload(i).None?
    ensures forall up :: AllName(i, up)
  {
  }

  lemma ExternalNames(c: Config, i: Intent, o: Outside, now: int)
    requires OneName(i) && ExternalReady(i, o, now) && ApplyExternal(i, o, now).log.dropped == 0
    ensures OneName(ApplyExternal(i, o, now))
  {
    SameNamesKept(i, ApplyExternal(i, o, now));
  }

  lemma ConcludeNames(i: Intent, k: nat, result: CheckResult, now: int)
    requires OneName(i) && k < |i.attempts|
    ensures OneName(Conclude(i, k, result, now))
  {
    SameNamesKept(i, Conclude(i, k, result, now));
  }

  lemma BuyNames(c: Config, i: Intent, k: nat, b: Buy, now: int)
    requires OneName(i) && Owned(i) && !i.log.cut && k < |i.attempts| && BuyReady(i.attempts[k], b)
    ensures OneName(ApplyBuy(c, i, k, b, now))
  {
    var j := ApplyBuy(c, i, k, b, now);
    if b.DoPersistUpload? {
      assert MayBuy(i.attempts[k]) && RowUpload(i).None?;
      Unnamed(i);
      NamesCarry(i, j, RowUpload(j));
    } else {
      SameNamesKept(i, j);
    }
  }

  lemma ExecuteNames(i: Intent, k: nat, outcome: Execution)
    requires OneName(i) && Owned(i) && !i.log.cut && k < |i.attempts| && RegisterReady(i, i.attempts[k], DoExecute(outcome))
    ensures OneName(Executed(i, k, outcome))
  {
    assert Working(i.attempts[k]) && !MayBuy(i.attempts[k]);
  }

  lemma RecordNames(c: Config, i: Intent, k: nat, landed: bool, ok: bool, now: int)
    requires OneName(i) && Owned(i) && !i.log.cut && k < |i.attempts| && RegisterReady(i, i.attempts[k], DoRecord(landed, ok))
    ensures OneName(ApplyRegister(c, i, k, DoRecord(landed, ok), now))
  {
    assert Working(i.attempts[k]) && !MayBuy(i.attempts[k]);
  }

  lemma RegisterNames(c: Config, i: Intent, k: nat, g: Register, now: int)
    requires OneName(i) && Owned(i) && !i.log.cut && k < |i.attempts| && RegisterReady(i, i.attempts[k], g)
    ensures OneName(ApplyRegister(c, i, k, g, now))
  {
    match g
    case DoExecute(outcome) => ExecuteNames(i, k, outcome);
    case DoRecord(landed, ok) => RecordNames(c, i, k, landed, ok, now);
    case DoPersistStore => SameNamesKept(i, DigestPersisted(c, i, k, now));
    case DoMarkLedgered(_) => SameNamesKept(i, ApplyRegister(c, i, k, g, now));
  }

  /** A proof sent or confirmed carries the attempt's object, which is the row's. */
  lemma ProofNames(i: Intent, j: Intent, k: nat, landed: bool)
    requires OneName(i) && Owned(i) && !i.log.cut && k < |i.attempts| && Between(i.attempts[k].pc, 11, 12) && i.attempts[k].up.Some?
    requires j.log.proofs == ProofLog(i, i.attempts[k], landed).proofs
    requires SameNames(i, j.(log := j.log.(proofs := i.log.proofs)))
    ensures OneName(j)
  {
    assert Working(i.attempts[k]) && !MayBuy(i.attempts[k]);
  }

  lemma DeliverNames(c: Config, i: Intent, k: nat, d: Deliver, now: int)
    requires OneName(i) && Owned(i) && !i.log.cut && k < |i.attempts| && DeliverReady(i.attempts[k], d)
    ensures OneName(ApplyDeliver(i, k, d, now))
  {
    match d
    case DoSend(landed, ok) => ProofNames(i, SendTried(i, k, landed, ok), k, landed);
    case DoConfirm(landed, ok) => ProofNames(i, ConfirmTried(i, k, landed, ok), k, landed);
    case _ => SameNamesKept(i, ApplyDeliver(i, k, d, now));
  }

  lemma ControlNames(c: Config, i: Intent, k: nat, r: Control, now: int)
    requires OneName(i) && k < |i.attempts| && ControlReady(i.attempts[k], r)
    ensures OneName(ApplyControl(c, i, k, r, now))
  {
    SameNamesKept(i, ApplyControl(c, i, k, r, now));
  }

  lemma SweepNames(c: Config, i: Intent, f: Backfill, now: int)
    requires OneName(i) && InOrder(i) && SweepReady(i, f)
    ensures OneName(ApplySweep(c, i, f, now))
  {
  }

  /** Until a row with an object is purged, every step keeps all names of the object equal to the row's. */
  lemma StepNames(c: Config, i: Intent, st: Step)
    requires Ready(i, st) && OneName(i) && Owned(i) && InOrder(i)
    requires !i.log.cut && Apply(c, i, st).log.dropped == 0
    ensures OneName(Apply(c, i, st))
  {
    match st
    case External(o, now) => ExternalNames(c, i, o, now);
    case ClaimRow(proc, leaseMs, start, now) => SameNamesKept(i, ApplyClaim(i, proc, leaseMs, start, now));
    case Checking(k, p, now) => ConcludeNames(i, k, CheckOutcome(c, i.attempts[k], p), now);
    case Buying(k, b, now) => BuyNames(c, i, k, b, now);
    case Registering(k, g, now) => RegisterNames(c, i, k, g, now);
    case Delivering(k, d, now) => DeliverNames(c, i, k, d, now);
    case Controlling(k, r, now) => ControlNames(c, i, k, r, now);
    case Sweeping(f, now) => SweepNames(c, i, f, now);
  }
}
