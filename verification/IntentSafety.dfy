/** What every step of one intent's protocol keeps, whatever interleaves: no assumption on races or purges. */
module IntentSafety {
  import opened Wrappers
  import opened StagedTable
  import opened OpsLedger
  import opened IntentProtocol

  /** The row left `active`: done, dead or expired. */
  predicate Left(i: Intent) {
    i.row.Some? && i.row.value.state != Active
  }

  predicate SettledHoldsNoBytes(i: Intent) {
    Left(i) ==> i.row.value.bytes.None?
  }

  /** A stored row is deleted only after the ledger holds its store, and `ledgered` never runs ahead of the ledger. */
  predicate TablesAgree(i: Intent) {
    && (i.log.firstDigest.Some? ==> i.entry.Some? || (i.row.Some? && i.row.value.storeDigest.Some?))
    && (i.row.Some? && i.row.value.storeDigest.Some? ==> i.log.firstDigest.Some?)
    && (i.row.Some? && i.row.value.ledgered ==> i.entry.Some?)
    && (forall k :: 0 <= k < |i.attempts| && i.attempts[k].pc == Mark ==> i.entry.Some?)
    && (forall j :: 0 <= j < |i.jobs| && i.jobs[j].stage == EntryWritten ==> i.entry.Some?)
    && i.log.bygone <= |i.attempts|
  }

  function MaxAttempts(c: Config): int {
    if c.maxStoreAttempts < c.returnMaxAttempts then c.returnMaxAttempts else c.maxStoreAttempts
  }

  predicate AttemptsBounded(c: Config, i: Intent) {
    && 1 <= c.maxStoreAttempts && 1 <= c.returnMaxAttempts
    && (i.row.Some? ==> 0 <= i.row.value.attempts < MaxAttempts(c))
    && (forall k :: 0 <= k < |i.attempts| ==> 0 <= i.attempts[k].row.attempts)
  }

  /** IntentReceived writes the deadline and the committed blob id with the flag. */
  predicate ReceivedHasTerms(i: Intent) {
    i.row.Some? && i.row.value.received ==> i.row.value.deadline.Some? && i.row.value.committedBlobId.Some?
  }

  predicate Sound(c: Config, i: Intent) {
    SettledHoldsNoBytes(i) && ReceivedHasTerms(i) && TablesAgree(i) && AttemptsBounded(c, i)
  }

  /** No resurrection before a purge, and nothing recorded is rewritten. */
  predicate Monotone(i: Intent, j: Intent) {
    && j.id == i.id
    && i.log.purges <= j.log.purges
    && (i.log.purges == j.log.purges && i.row.Some? ==> j.row.Some?)
    && (i.log.purges == j.log.purges && Left(i) ==> Left(j))
    && i.log.dropped <= j.log.dropped && i.log.bygone <= j.log.bygone
    && (i.log.cut ==> j.log.cut)
    && (i.log.buyRaced ==> j.log.buyRaced)
    && (i.log.recordRaced ==> j.log.recordRaced)
    && (i.log.resumed ==> j.log.resumed)
    && (i.entry.Some? ==> j.entry == i.entry)
    && (i.onSui.Some? ==> j.onSui == i.onSui)
    && (i.log.firstDigest.Some? ==> j.log.firstDigest == i.log.firstDigest)
  }

  /** What a passed check may change in the attempt. */
  predicate Continues(c: Config, a: Attempt, next: Attempt) {
    && next.proc == a.proc && next.row == a.row && next.up == a.up && next.digest == a.digest
    && next.sent == a.sent && next.settle == a.settle
    && (next.pc in {Resolve, Guard} || next.pc == AfterGuard(c, a.row))
  }

  lemma CheckContinues(c: Config, a: Attempt, p: Check)
    ensures CheckOutcome(c, a, p).Go? ==> Continues(c, a, CheckOutcome(c, a, p).a)
  {
  }

  lemma ConcludeKeeps(c: Config, i: Intent, k: nat, result: CheckResult, now: int)
    requires Sound(c, i) && k < |i.attempts|
    requires result.Go? ==> Continues(c, i.attempts[k], result.a)
    ensures Sound(c, Conclude(i, k, result, now)) && Monotone(i, Conclude(i, k, result, now))
  {
  }

  /** One attempt moves, the row stays as it is or settles, and nothing recorded changes. */
  predicate Unrecorded(i: Intent, j: Intent) {
    && j.id == i.id && j.entry == i.entry && j.onSui == i.onSui && j.jobs == i.jobs
    && j.log.firstDigest == i.log.firstDigest && j.log.purges == i.log.purges && SameFlags(i, j)
    && (j.row.Some? <==> i.row.Some?)
    && (i.row.Some? ==> j.row.value.storeDigest == i.row.value.storeDigest && j.row.value.ledgered == i.row.value.ledgered
                        && (Left(i) ==> Left(j)))
  }

  predicate SameFlags(i: Intent, j: Intent) {
    && j.log.dropped == i.log.dropped && j.log.bygone == i.log.bygone && j.log.cut == i.log.cut
    && j.log.buyRaced == i.log.buyRaced && j.log.recordRaced == i.log.recordRaced && j.log.resumed == i.log.resumed
  }

  lemma UnrecordedKeeps(c: Config, i: Intent, j: Intent, k: nat)
    requires Sound(c, i) && k < |i.attempts| == |j.attempts| && j.attempts == i.attempts[k := j.attempts[k]]
    requires Unrecorded(i, j) && SettledHoldsNoBytes(j) && ReceivedHasTerms(j)
    requires j.attempts[k].row == i.attempts[k].row && (j.attempts[k].pc == Mark ==> i.entry.Some?)
    requires j.row.Some? ==> 0 <= j.row.value.attempts < MaxAttempts(c)
    ensures Sound(c, j) && Monotone(i, j)
  {
  }

  lemma ExternalKeeps(c: Config, i: Intent, o: Outside, now: int)
    requires Sound(c, i)
    requires ExternalReady(i, o, now)
    ensures Sound(c, ApplyExternal(i, o, now)) && Monotone(i, ApplyExternal(i, o, now))
  {
  }

  lemma ClaimKeeps(c: Config, i: Intent, proc: string, leaseMs: int, start: Option<IntentCommitment>, now: int)
    requires Sound(c, i)
    requires ClaimReady(i, proc, start, now)
    ensures Sound(c, ApplyClaim(i, proc, leaseMs, start, now)) && Monotone(i, ApplyClaim(i, proc, leaseMs, start, now))
  {
  }

  lemma CheckKeeps(c: Config, i: Intent, k: nat, p: Check, now: int)
    requires Sound(c, i)
    requires k < |i.attempts| && CheckReady(i.attempts[k], p)
    ensures Sound(c, ApplyCheck(c, i, k, p, now)) && Monotone(i, ApplyCheck(c, i, k, p, now))
  {
    CheckContinues(c, i.attempts[k], p);
    ConcludeKeeps(c, i, k, CheckOutcome(c, i.attempts[k], p), now);
  }

  lemma BuyKeeps(c: Config, i: Intent, k: nat, b: Buy, now: int)
    requires Sound(c, i)
    requires k < |i.attempts| && BuyReady(i.attempts[k], b)
    ensures Sound(c, ApplyBuy(c, i, k, b, now)) && Monotone(i, ApplyBuy(c, i, k, b, now))
  {
    match b
    case DoFetch => UnrecordedKeeps(c, i, Fetched(i, k), k);
    case DoUpload(up) => UnrecordedKeeps(c, i, Uploaded(i, k, up), k);
    case DoPersistUpload => UnrecordedKeeps(c, i, UploadPersisted(c, i, k, now), k);
  }

  lemma ExecuteKeeps(c: Config, i: Intent, k: nat, outcome: Execution)
    requires Sound(c, i) && k < |i.attempts| && RegisterReady(i, i.attempts[k], DoExecute(outcome))
    ensures Sound(c, Executed(i, k, outcome)) && Monotone(i, Executed(i, k, outcome))
  {
  }

  lemma DigestKeeps(c: Config, i: Intent, k: nat, now: int)
    requires Sound(c, i) && k < |i.attempts| && RegisterReady(i, i.attempts[k], DoPersistStore)
    ensures Sound(c, DigestPersisted(c, i, k, now)) && Monotone(i, DigestPersisted(c, i, k, now))
  {
  }

  lemma LedgerKeeps(c: Config, i: Intent, k: nat, g: Register, now: int)
    requires Sound(c, i) && k < |i.attempts| && RegisterReady(i, i.attempts[k], g)
    requires g.DoRecord? || g.DoMarkLedgered?
    ensures Sound(c, ApplyRegister(c, i, k, g, now)) && Monotone(i, ApplyRegister(c, i, k, g, now))
  {
  }

  lemma RegisterKeeps(c: Config, i: Intent, k: nat, g: Register, now: int)
    requires Sound(c, i)
    requires k < |i.attempts| && RegisterReady(i, i.attempts[k], g)
    ensures Sound(c, ApplyRegister(c, i, k, g, now)) && Monotone(i, ApplyRegister(c, i, k, g, now))
  {
    match g
    case DoExecute(outcome) => ExecuteKeeps(c, i, k, outcome);
    case DoPersistStore => DigestKeeps(c, i, k, now);
    case _ => LedgerKeeps(c, i, k, g, now);
  }

  lemma QuietDeliveryKeeps(c: Config, i: Intent, k: nat, d: Deliver, now: int)
    requires Sound(c, i) && k < |i.attempts| && DeliverReady(i.attempts[k], d)
    requires d.DoFreeBytes? || d.DoMarkReturned? || d.DoFinish?
    ensures Sound(c, ApplyDeliver(i, k, d, now)) && Monotone(i, ApplyDeliver(i, k, d, now))
  {
    UnrecordedKeeps(c, i, ApplyDeliver(i, k, d, now), k);
  }

  lemma SendKeeps(c: Config, i: Intent, k: nat, landed: bool, ok: bool)
    requires Sound(c, i) && k < |i.attempts| && DeliverReady(i.attempts[k], DoSend(landed, ok))
    ensures Sound(c, SendTried(i, k, landed, ok)) && Monotone(i, SendTried(i, k, landed, ok))
  {
    UnrecordedKeeps(c, i, SendTried(i, k, landed, ok), k);
  }

  lemma ConfirmKeeps(c: Config, i: Intent, k: nat, landed: bool, ok: bool)
    requires Sound(c, i) && k < |i.attempts| && DeliverReady(i.attempts[k], DoConfirm(landed, ok))
    ensures Sound(c, ConfirmTried(i, k, landed, ok)) && Monotone(i, ConfirmTried(i, k, landed, ok))
  {
    UnrecordedKeeps(c, i, ConfirmTried(i, k, landed, ok), k);
  }

  lemma BookKeeps(c: Config, i: Intent, k: nat, now: int)
    requires Sound(c, i) && k < |i.attempts|
    ensures Sound(c, BookCompletion(i, k, now)) && Monotone(i, BookCompletion(i, k, now))
  {
    UnrecordedKeeps(c, i, BookCompletion(i, k, now), k);
  }

  lemma DeliverKeeps(c: Config, i: Intent, k: nat, d: Deliver, now: int)
    requires Sound(c, i)
    requires k < |i.attempts| && DeliverReady(i.attempts[k], d)
    ensures Sound(c, ApplyDeliver(i, k, d, now)) && Monotone(i, ApplyDeliver(i, k, d, now))
  {
    match d
    case DoSend(landed, ok) => SendKeeps(c, i, k, landed, ok);
    case DoConfirm(landed, ok) => ConfirmKeeps(c, i, k, landed, ok);
    case DoBook => BookKeeps(c, i, k, now);
    case _ => QuietDeliveryKeeps(c, i, k, d, now);
  }

  lemma SettleKeeps(c: Config, i: Intent, k: nat, nextAt: int, error: string, now: int)
    requires Sound(c, i) && k < |i.attempts| && i.attempts[k].settle.Pending?
    ensures Sound(c, SettleAttempt(c, i, k, nextAt, error, now)) && Monotone(i, SettleAttempt(c, i, k, nextAt, error, now))
  {
    UnrecordedKeeps(c, i, SettleAttempt(c, i, k, nextAt, error, now), k);
  }

  lemma ControlKeeps(c: Config, i: Intent, k: nat, r: Control, now: int)
    requires Sound(c, i)
    requires k < |i.attempts| && ControlReady(i.attempts[k], r)
    ensures Sound(c, ApplyControl(c, i, k, r, now)) && Monotone(i, ApplyControl(c, i, k, r, now))
  {
    match r
    case SettleRow(nextAt, error) => SettleKeeps(c, i, k, nextAt, error, now);
    case _ => UnrecordedKeeps(c, i, ApplyControl(c, i, k, r, now), k);
  }

  lemma SweepKeeps(c: Config, i: Intent, f: Backfill, now: int)
    requires Sound(c, i)
    requires SweepReady(i, f)
    ensures Sound(c, ApplySweep(c, i, f, now)) && Monotone(i, ApplySweep(c, i, f, now))
  {
  }

  lemma StepKeeps(c: Config, i: Intent, st: Step)
    requires Ready(i, st) && Sound(c, i)
    ensures Sound(c, Apply(c, i, st)) && Monotone(i, Apply(c, i, st))
  {
    match st
    case External(o, now) => ExternalKeeps(c, i, o, now);
    case ClaimRow(proc, leaseMs, start, now) => ClaimKeeps(c, i, proc, leaseMs, start, now);
    case Checking(k, p, now) => CheckKeeps(c, i, k, p, now);
    case Buying(k, b, now) => BuyKeeps(c, i, k, b, now);
    case Registering(k, g, now) => RegisterKeeps(c, i, k, g, now);
    case Delivering(k, d, now) => DeliverKeeps(c, i, k, d, now);
    case Controlling(k, r, now) => ControlKeeps(c, i, k, r, now);
    case Sweeping(f, now) => SweepKeeps(c, i, f, now);
  }
}
