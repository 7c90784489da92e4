/**
  The store queue seen from one intent: its row, its ledger entry, what Sui holds for it, and every
  activation of store() and of the ledger backfill that touches it, in any number of processes.
  One step is one SQL statement on the row, one answered external call, or one change of control.
 */
module IntentProtocol {
  import opened Wrappers
  import opened StagedTable
  import opened OpsLedger
  import Pricing
  import Settlement
  import StoreEpochs
  import WalCost

  datatype IntentCommitment = IntentCommitment(sender: string, committedBlobId: Option<string>)

  datatype Escrow = Escrow(escrowNative: int, originToken: Pricing.OriginToken)

  /** What the guard reads live: token prices and the Walrus system state. */
  datatype Market = Market(prices: Pricing.PriceSet, wal: WalCost.SystemState)

  /** The injected guard: what it answers for a size, a duration, an escrow and the market it reads. */
  type BreakEvenCheck = (int, int, Escrow, Market) -> Result<Pricing.Decision>

  datatype Config = Config(
    guardEnabled: bool, guard: BreakEvenCheck, minMargin: real, returnLzFeeMist: int, suiGasMist: int,
    defaultEpochs: int, maxEpochs: int, ledgerOn: bool, network: string,
    maxStoreAttempts: int, returnMaxAttempts: int,
    committedSize: string -> nat, committedRef: string -> string,   // what each intent's commitment names
    blobIdOf: Bytes -> string, blobIdMatches: (string, string) -> bool)

  /** The reference no blob matches, for a row without any. */
  const ZERO_REF := "0x0000000000000000000000000000000000000000000000000000000000000000"

  /** The reference store() holds the row's blob id against. */
  function CommittedRef(row: Row, commitment: IntentCommitment): string {
    commitment.committedBlobId.Or(row.committedBlobId).GetOr(ZERO_REF)
  }

  predicate BlobMatches(c: Config, row: Row, commitment: IntentCommitment) {
    c.blobIdMatches(row.blobId.GetOr(""), CommittedRef(row, commitment))
  }

  /** Ingest lets in only bytes of exactly the committed size whose own blob id is the committed one. */
  predicate Ingestible(c: Config, id: string, blob: StagedBytes) {
    && |blob.bytes| == blob.size == c.committedSize(id)
    && blob.blobId == c.blobIdOf(blob.bytes) && c.blobIdMatches(blob.blobId, c.committedRef(id))
  }

  // ---------- one activation of store() ----------

  /** The statement store() performs next. */
  datatype Pc =
    | Verify | Resolve | Guard | Fetch | Uploading(payload: Bytes) | PersistUp
    | Execute | PersistDigest | Record | Mark | Free | Send | Confirm | MarkRet | Finish | Booking | Ended

  /** What runStore() still owes the row: nothing yet, a retry or dead letter, or nothing any more. */
  datatype Settle = Open | Pending(post: bool) | Settled

  /** The guard's part in an attempt: not run, no escrow to weigh, or its answer for an escrow. */
  datatype Guarding = NotAsked | NoTerms | Answered(escrow: Escrow, decision: Pricing.Decision)

  datatype Attempt = Attempt(
    proc: string, row: Row, commitment: IntentCommitment, pc: Pc,
    committed: Option<int>, epochs: int, guarding: Guarding,
    up: Option<UploadResult>, digest: Option<string>, sent: bool, settle: Settle)

  predicate Working(a: Attempt) {
    a.pc != Ended
  }

  predicate Unsettled(a: Attempt) {
    Working(a) || a.settle.Pending?
  }

  /** Its outcome is still to come: it may yet be settled, or is being settled. A timed-out attempt's is not, once written. */
  predicate Owing(a: Attempt) {
    a.settle.Pending? || (Working(a) && a.settle.Open?)
  }

  /** Position of a statement in store(). */
  function Rank(pc: Pc): nat {
    match pc
    case Verify => 0 case Resolve => 1 case Guard => 2 case Fetch => 3 case Uploading(_) => 4 case PersistUp => 5
    case Execute => 6 case PersistDigest => 7 case Record => 8 case Mark => 9 case Free => 10
    case Send => 11 case Confirm => 12 case MarkRet => 13 case Finish => 14 case Booking => 15 case Ended => 16
  }

  predicate Between(pc: Pc, low: nat, high: nat) {
    low <= Rank(pc) <= high
  }

  /** Started from a row without an object, and not past persistUpload: it may still write one. */
  predicate MayBuy(a: Attempt) {
    Between(a.pc, 0, 5) && a.row.upload.None?
  }

  /** Started from a row without a digest, and not past persistStore: it may still write one. */
  predicate MayRecord(a: Attempt) {
    Between(a.pc, 0, 7) && a.row.storeDigest.None?
  }

  /** A backfill sweep's hold on the row it read. */
  datatype JobStage = RowRead | EntryWritten | Over

  datatype Job = Job(row: Row, stage: JobStage)

  // ---------- history ----------

  datatype Proof = Proof(walrusBlobId: string, endEpoch: int)

  /** What one Walrus upload was bought for, by which attempt, and the bytes that went up. */
  datatype Spend = Spend(buyer: nat, size: int, payload: Bytes, committed: Option<int>, epochs: int, guarding: Guarding)

  datatype Log = Log(
    uploads: nat,       // Walrus uploads that succeeded, hence WAL spent
    lost: nat,          // uploads whose attempt died before persistUpload reached the row
    overwrites: nat,    // persistUpload over an object id already there
    dropped: nat,       // purges of a row that named an object
    sends: nat,         // LayerZero proof sends that landed
    crashed: nat,       // attempts that died, or lost the write of their outcome, without settling
    closed: bool,       // some attempt took the present row to done or dead
    firstDigest: Option<string>,  // the first store digest the row ever held
    purges: nat,        // times the row was deleted
    bygone: nat,        // attempts begun before the last of them
    cut: bool,          // a purge hit a row some attempt was still working on
    buyRaced: bool,     // an attempt started from a row without an object while another could still buy one
    recordRaced: bool,  // an attempt started from a row without a digest while another could still record one
    resumed: bool,      // an attempt started while an earlier one's outcome was still to be written
    proofs: seq<Proof>,
    spends: seq<Spend>)

  datatype Intent = Intent(
    id: string, row: Option<Row>, entry: Option<StorageOpEntry>, onSui: Option<string>,
    attempts: seq<Attempt>, jobs: seq<Job>, pnl: map<string, Settlement.PnlEntry>, log: Log)

  function Fresh(id: string): Intent {
    Intent(id, None, None, None, [], [], map[], Log(0, 0, 0, 0, 0, 0, false, None, 0, 0, false, false, false, false, [], []))
  }

  // ---------- steps ----------

  /** Producers and the reaper. */
  datatype Outside =
    | Ingest(blob: StagedBytes)
    | Received(details: ReceivedDetails)
    | BackOff(nextAt: int)
    | ExpireRow
    | ExpireOrphan(cutoff: int)
    | PurgeRow(cutoff: int)

  /** store() before any spend. `verdict` is what the guard answered for `terms`. */
  datatype Check =
    | DoVerify
    | DoResolve(onSuiEpochs: Option<int>, walrusMax: int)
    | DoGuard(terms: Option<Escrow>, market: Market, verdict: Pricing.Decision)

  /** store() from the bytes to the persisted upload. */
  datatype Buy =
    | DoFetch
    | DoUpload(up: UploadResult)
    | DoPersistUpload

  datatype Execution = Landed(digest: string) | LandedButLost | AlreadyExecuted

  /** store() from execute_store to the ledger. */
  datatype Register =
    | DoExecute(outcome: Execution)
    | DoPersistStore
    | DoRecord(landed: bool, ok: bool)
    | DoMarkLedgered(landed: bool)

  /** store() from the freed bytes to the booked profit. */
  datatype Deliver =
    | DoFreeBytes
    | DoSend(landed: bool, ok: bool)
    | DoConfirm(landed: bool, ok: bool)
    | DoMarkReturned
    | DoFinish
    | DoBook

  /** runStore() and the process around it. */
  datatype Control =
    | Throw
    | Timeout
    | SettleRow(nextAt: int, error: string)
    | SettleLost
    | Kill

  datatype Backfill =
    | ReadPending
    | JobRecord(j: nat, commitment: Option<IntentCommitment>, landed: bool, ok: bool)
    | JobMark(j: nat, landed: bool)

  datatype Step =
    | External(o: Outside, now: int)
    // the claim loop leases the row, and starts store() on the leased snapshot when `start` is given
    | ClaimRow(proc: string, leaseMs: int, start: Option<IntentCommitment>, now: int)
    | Checking(k: nat, p: Check, now: int)
    | Buying(k: nat, b: Buy, now: int)
    | Registering(k: nat, g: Register, now: int)
    | Delivering(k: nat, d: Deliver, now: int)
    | Controlling(k: nat, r: Control, now: int)
    | Sweeping(f: Backfill, now: int)

  predicate InProcess(i: Intent, proc: string) {
    exists k :: 0 <= k < |i.attempts| && Working(i.attempts[k]) && i.attempts[k].proc == proc
  }

  predicate SomeWorking(i: Intent) {
    exists k :: 0 <= k < |i.attempts| && Working(i.attempts[k])
  }

  predicate SomeMayBuy(i: Intent) {
    exists k :: 0 <= k < |i.attempts| && MayBuy(i.attempts[k])
  }

  predicate SomeMayRecord(i: Intent) {
    exists k :: 0 <= k < |i.attempts| && MayRecord(i.attempts[k])
  }

  predicate SomeOwing(i: Intent) {
    exists k :: 0 <= k < |i.attempts| && Owing(i.attempts[k])
  }

  /** The tick skips rows past their deadline; the reaper settles them. */
  predicate Startable(r: Row, now: int) {
    !(r.deadline.Some? && now >= r.deadline.value)
  }

  /** The guard runs only before the spend. */
  predicate Guarded(c: Config, a: Attempt) {
    c.guardEnabled && a.row.upload.None?
  }

  predicate ExternalReady(i: Intent, o: Outside, now: int) {
    match o
    case Ingest(_) => true
    case Received(_) => true
    case BackOff(_) => true
    case ExpireRow => i.row.Some? && PastDeadline(i.row.value, now)
    case ExpireOrphan(cutoff) => i.row.Some? && Orphaned(i.row.value, cutoff)
    case PurgeRow(cutoff) => i.row.Some? && Purgeable(i.row.value, cutoff)
  }

  predicate ClaimReady(i: Intent, proc: string, start: Option<IntentCommitment>, now: int) {
    && i.row.Some? && Claimable(i.row.value, proc, now)
    && (start.Some? ==> !InProcess(i, proc) && Startable(i.row.value, now))
  }

  predicate CheckReady(a: Attempt, p: Check) {
    match p
    case DoVerify => a.pc == Verify
    case DoResolve(_, _) => a.pc == Resolve
    case DoGuard(_, _, _) => a.pc == Guard
  }

  predicate BuyReady(a: Attempt, b: Buy) {
    match b
    case DoFetch => a.pc == Fetch
    case DoUpload(_) => a.pc.Uploading? && 1 <= a.epochs
    case DoPersistUpload => a.pc == PersistUp && a.up.Some?
  }

  predicate RegisterReady(i: Intent, a: Attempt, g: Register) {
    match g
    case DoExecute(outcome) => a.pc == Execute && a.up.Some? && (outcome.AlreadyExecuted? <==> i.onSui.Some?)
    case DoPersistStore => a.pc == PersistDigest && a.digest.Some?
    case DoRecord(landed, ok) => a.pc == Record && (ok ==> landed)
    case DoMarkLedgered(_) => a.pc == Mark
  }

  predicate DeliverReady(a: Attempt, d: Deliver) {
    match d
    case DoFreeBytes => a.pc == Free
    case DoSend(landed, ok) => a.pc == Send && a.up.Some? && (ok ==> landed)
    case DoConfirm(landed, ok) => a.pc == Confirm && a.up.Some? && (ok ==> landed)
    case DoMarkReturned => a.pc == MarkRet
    case DoFinish => a.pc == Finish
    case DoBook => a.pc == Booking
  }

  /**
    store() catches errors of the proof send and of the ledger write and tags those of the confirmation;
    everything else it throws, also when a statement landed and only its answer was lost.
   */
  predicate ControlReady(a: Attempt, r: Control) {
    match r
    case Throw => Working(a) && a.pc !in {Confirm, Mark}
    case Timeout => Working(a) && a.settle.Open?
    case SettleRow(_, _) => a.settle.Pending?
    case SettleLost => a.settle.Pending?
    case Kill => Unsettled(a)
  }

  predicate SweepReady(i: Intent, b: Backfill) {
    match b
    case ReadPending => i.row.Some? && PendingLedger(i.row.value)
    case JobRecord(j, _, landed, ok) => j < |i.jobs| && i.jobs[j].stage == RowRead && (ok ==> landed)
    case JobMark(j, _) => j < |i.jobs| && i.jobs[j].stage == EntryWritten
  }

  /** Control allows the step; what the guard answered and what ingest lets in is checked by Truthful. */
  predicate Ready(i: Intent, st: Step) {
    match st
    case External(o, now) => ExternalReady(i, o, now)
    case ClaimRow(proc, _, start, now) => ClaimReady(i, proc, start, now)
    case Checking(k, p, _) => k < |i.attempts| && CheckReady(i.attempts[k], p)
    case Buying(k, b, _) => k < |i.attempts| && BuyReady(i.attempts[k], b)
    case Registering(k, g, _) => k < |i.attempts| && RegisterReady(i, i.attempts[k], g)
    case Delivering(k, d, _) => k < |i.attempts| && DeliverReady(i.attempts[k], d)
    case Controlling(k, r, _) => k < |i.attempts| && ControlReady(i.attempts[k], r)
    case Sweeping(f, _) => SweepReady(i, f)
  }

  /** The verdict is the guard's own for the row's size and the duration the store buys. */
  predicate GuardTruthful(c: Config, i: Intent, st: Step) {
    st.Checking? && st.p.DoGuard? && st.k < |i.attempts| && Guarded(c, i.attempts[st.k]) && st.p.terms.Some?
    ==> c.guard(i.attempts[st.k].row.size.GetOr(0), i.attempts[st.k].epochs, st.p.terms.value, st.p.market) == Success(st.p.verdict)
  }

  predicate Truthful(c: Config, i: Intent, st: Step) {
    && GuardTruthful(c, i, st)
    && (st.External? && st.o.Ingest? ==> Ingestible(c, i.id, st.o.blob))
  }

  predicate Enabled(c: Config, i: Intent, st: Step) {
    Ready(i, st) && Truthful(c, i, st)
  }

  // ---------- effects ----------

  function Moved(i: Intent, k: nat, a: Attempt): Intent
    requires k < |i.attempts|
  {
    i.(attempts := i.attempts[k := a])
  }

  function Goto(i: Intent, k: nat, pc: Pc): Intent
    requires k < |i.attempts|
  {
    Moved(i, k, i.attempts[k].(pc := pc))
  }

  /** Where an attempt goes on, by the row it started from. */
  function AfterReturnCheck(row: Row): Pc {
    if row.returned then Finish else Send
  }

  function AfterDigest(c: Config, row: Row): Pc {
    if !row.ledgered && c.ledgerOn then Record else Free
  }

  function AfterUpload(c: Config, row: Row): Pc {
    if row.storeDigest.None? then Execute else AfterDigest(c, row)
  }

  function AfterGuard(c: Config, row: Row): Pc {
    if row.upload.None? then Fetch else AfterUpload(c, row)
  }

  function ApplyExternal(i: Intent, o: Outside, now: int): Intent
    requires ExternalReady(i, o, now)
  {
    match o
    case Ingest(blob) => i.(row := Upsert(i.row, blob, now))
    case Received(details) => i.(row := Receive(i.row, details, now))
    case BackOff(nextAt) => if i.row.Some? then i.(row := Some(BackOffRecovery(i.row.value, nextAt, now))) else i
    case ExpireRow => i.(row := Some(Expire(i.row.value, now)))
    case ExpireOrphan(_) => i.(row := Some(Expire(i.row.value, now)))
    case PurgeRow(_) =>
      i.(row := None,
         log := i.log.(purges := i.log.purges + 1, bygone := |i.attempts|, closed := false,
                       cut := i.log.cut || SomeWorking(i),
                       dropped := i.log.dropped + if i.row.value.upload.Some? then 1 else 0))
  }

  function StartAttempt(proc: string, row: Row, commitment: IntentCommitment): Attempt {
    Attempt(proc, row, commitment, Verify, None, 0, NotAsked, row.upload, row.storeDigest, false, Open)
  }

  function ApplyClaim(i: Intent, proc: string, leaseMs: int, start: Option<IntentCommitment>, now: int): Intent
    requires ClaimReady(i, proc, start, now)
  {
    var row := Claim(i.row.value, proc, now, leaseMs);
    if start.None? then i.(row := Some(row))
    else i.(row := Some(row),
            attempts := i.attempts + [StartAttempt(proc, row, start.value)],
            log := i.log.(buyRaced := i.log.buyRaced || (row.upload.None? && SomeMayBuy(i)),
                          recordRaced := i.log.recordRaced || (row.storeDigest.None? && SomeMayRecord(i)),
                          resumed := i.log.resumed || SomeOwing(i)))
  }

  function Killed(row: Option<Row>, error: string, now: int): Option<Row> {
    if row.Some? then Some(MarkDead(row.value, error, now)) else None
  }

  /** An attempt settles the row, if there is one. */
  function Closed(i: Intent): Log {
    i.log.(closed := i.log.closed || i.row.Some?)
  }

  function Booked(i: Intent, proc: string, e: Settlement.PnlEntry): Intent {
    if proc in i.pnl then i else i.(pnl := i.pnl[proc := Settlement.WithNet(e)])
  }

  /** A check before the spend either lets the attempt go on or refuses the intent, with or without a booked skip. */
  datatype CheckResult = Go(a: Attempt) | Stop(error: string, skip: bool)

  function Resolved(c: Config, a: Attempt, onSuiEpochs: Option<int>, walrusMax: int): CheckResult {
    var committed := a.row.storageEpochs.Or(onSuiEpochs);
    var r := StoreEpochs.ResolveWithLiveCap(committed, c.defaultEpochs, c.maxEpochs, walrusMax);
    if r.Accepted? then
      Go(a.(committed := committed, epochs := r.epochs, pc := Guard))
    else if a.row.upload.Some? then
      Go(a.(committed := committed, epochs := StoreEpochs.Max(committed.GetOr(0), StoreEpochs.WALRUS_MIN_EPOCHS), pc := Guard))
    else
      Stop("storage epochs rejected", true)
  }

  function GuardAnswered(c: Config, a: Attempt, terms: Option<Escrow>, verdict: Pricing.Decision): CheckResult {
    if !Guarded(c, a) then Go(a.(pc := AfterGuard(c, a.row)))
    else if terms.None? then Go(a.(guarding := NoTerms, pc := AfterGuard(c, a.row)))
    else if verdict.proceed then Go(a.(guarding := Answered(terms.value, verdict), pc := AfterGuard(c, a.row)))
    else Stop("break-even guard skip", true)
  }

  function CheckOutcome(c: Config, a: Attempt, p: Check): CheckResult {
    match p
    case DoVerify => if BlobMatches(c, a.row, a.commitment) then Go(a.(pc := Resolve)) else Stop("blob id mismatch", false)
    case DoResolve(onSuiEpochs, walrusMax) => Resolved(c, a, onSuiEpochs, walrusMax)
    case DoGuard(terms, _, verdict) => GuardAnswered(c, a, terms, verdict)
  }

  /** A refusal dead-letters the row and the attempt returns: no WAL was spent by it. */
  function Conclude(i: Intent, k: nat, result: CheckResult, now: int): Intent
    requires k < |i.attempts|
  {
    match result
    case Go(next) => Moved(i, k, next)
    case Stop(error, skip) =>
      var refused := Goto(i, k, Ended).(row := Killed(i.row, error, now), log := Closed(i));
      if skip then Booked(refused, i.attempts[k].proc, Settlement.SkipEntry(i.id, now)) else refused
  }

  function ApplyCheck(c: Config, i: Intent, k: nat, p: Check, now: int): Intent
    requires k < |i.attempts| && CheckReady(i.attempts[k], p)
  {
    Conclude(i, k, CheckOutcome(c, i.attempts[k], p), now)
  }

  /** The attempt's work ends in an error; a timed-out attempt's outcome was already taken. */
  function Failed(a: Attempt, post: bool): Attempt {
    a.(pc := Ended, settle := if a.settle.Open? then Pending(post) else a.settle)
  }

  function LostUpload(a: Attempt): nat {
    if a.pc == PersistUp then 1 else 0
  }

  function Fetched(i: Intent, k: nat): Intent
    requires k < |i.attempts|
  {
    if i.row.Some? && i.row.value.bytes.Some? then Goto(i, k, Uploading(i.row.value.bytes.value))
    else Moved(i, k, Failed(i.attempts[k], false))
  }

  function Uploaded(i: Intent, k: nat, up: UploadResult): Intent
    requires k < |i.attempts| && i.attempts[k].pc.Uploading?
  {
    var a := i.attempts[k];
    Moved(i, k, a.(up := Some(up), pc := PersistUp)).(
      log := i.log.(uploads := i.log.uploads + 1,
                    spends := i.log.spends + [Spend(k, a.row.size.GetOr(0), a.pc.payload, a.committed, a.epochs, a.guarding)]))
  }

  function UploadPersisted(c: Config, i: Intent, k: nat, now: int): Intent
    requires k < |i.attempts| && i.attempts[k].up.Some?
  {
    var a := i.attempts[k];
    var moved := Goto(i, k, AfterUpload(c, a.row));
    if i.row.None? then moved.(log := i.log.(lost := i.log.lost + 1))
    else moved.(row := Some(PersistUpload(i.row.value, a.up.value, now)),
                log := i.log.(overwrites := i.log.overwrites + if i.row.value.upload.Some? then 1 else 0))
  }

  function ApplyBuy(c: Config, i: Intent, k: nat, b: Buy, now: int): Intent
    requires k < |i.attempts| && BuyReady(i.attempts[k], b)
  {
    match b
    case DoFetch => Fetched(i, k)
    case DoUpload(up) => Uploaded(i, k, up)
    case DoPersistUpload => UploadPersisted(c, i, k, now)
  }

  function Executed(i: Intent, k: nat, outcome: Execution): Intent
    requires k < |i.attempts| && i.attempts[k].up.Some?
  {
    var a := i.attempts[k];
    match outcome
    case Landed(digest) => Moved(i, k, a.(digest := Some(digest), pc := PersistDigest)).(onSui := Some(a.up.value.walrusObjectId))
    case LandedButLost => Moved(i, k, Failed(a, false)).(onSui := Some(a.up.value.walrusObjectId))
    case AlreadyExecuted => Moved(i, k, a.(digest := Some(ALREADY_RECORDED), pc := PersistDigest))
  }

  function DigestPersisted(c: Config, i: Intent, k: nat, now: int): Intent
    requires k < |i.attempts| && i.attempts[k].digest.Some?
  {
    var a := i.attempts[k];
    var moved := Goto(i, k, AfterDigest(c, a.row));
    if i.row.None? then moved
    else moved.(row := Some(PersistStore(i.row.value, a.digest.value, now)),
                log := i.log.(firstDigest := i.log.firstDigest.Or(a.digest)))
  }

  /** What the inline writer knows when execute_store has succeeded. */
  function InlineStore(a: Attempt): CompletedStore {
    CompletedStore(a.row, Some(a.commitment.sender), a.commitment.committedBlobId.Or(a.row.committedBlobId), a.up, a.digest)
  }

  function BackfillStore(row: Row, commitment: Option<IntentCommitment>): CompletedStore {
    CompletedStore(row, if commitment.Some? then Some(commitment.value.sender) else None,
                   if commitment.Some? then commitment.value.committedBlobId else None, None, None)
  }

  /** INSERT ... ON CONFLICT DO NOTHING, when it reaches the table. */
  function Inserted(i: Intent, landed: bool, done: CompletedStore, c: Config, now: int): Option<StorageOpEntry> {
    if landed then i.entry.Or(Some(BuildLedgerEntry(i.id, done, c.network, now))) else i.entry
  }

  function RowLedgered(row: Option<Row>, landed: bool): Option<Row> {
    if landed && row.Some? then Some(MarkLedgered(row.value)) else row
  }

  function ProofLog(i: Intent, a: Attempt, landed: bool): Log
    requires a.up.Some?
  {
    if landed then i.log.(proofs := i.log.proofs + [Proof(a.up.value.walrusBlobId, a.up.value.endEpoch)]) else i.log
  }

  function SendTried(i: Intent, k: nat, landed: bool, ok: bool): Intent
    requires k < |i.attempts| && i.attempts[k].up.Some?
  {
    var a := i.attempts[k];
    Moved(i, k, a.(sent := landed, pc := if ok then MarkRet else Confirm)).(
      log := ProofLog(i, a, landed).(sends := i.log.sends + if landed then 1 else 0))
  }

  function ConfirmTried(i: Intent, k: nat, landed: bool, ok: bool): Intent
    requires k < |i.attempts| && i.attempts[k].up.Some?
  {
    var a := i.attempts[k];
    Moved(i, k, if ok then a.(pc := MarkRet) else Failed(a, true)).(log := ProofLog(i, a, landed))
  }

  function BookCompletion(i: Intent, k: nat, now: int): Intent
    requires k < |i.attempts|
  {
    var a := i.attempts[k];
    var ended := Goto(i, k, Ended);
    if !a.guarding.Answered? then ended
    else Booked(ended, a.proc, Settlement.CompletionEntry(i.id, a.guarding.decision.escrowUsd, a.guarding.decision.costUsd, now))
  }

  function ApplyRegister(c: Config, i: Intent, k: nat, g: Register, now: int): Intent
    requires k < |i.attempts| && RegisterReady(i, i.attempts[k], g)
  {
    match g
    case DoExecute(outcome) => Executed(i, k, outcome)
    case DoPersistStore => DigestPersisted(c, i, k, now)
    case DoRecord(landed, ok) =>
      Goto(i, k, if ok then Mark else Free).(entry := Inserted(i, landed, InlineStore(i.attempts[k]), c, now))
    case DoMarkLedgered(landed) => Goto(i, k, Free).(row := RowLedgered(i.row, landed))
  }

  function ApplyDeliver(i: Intent, k: nat, d: Deliver, now: int): Intent
    requires k < |i.attempts| && DeliverReady(i.attempts[k], d)
  {
    match d
    case DoFreeBytes =>
      Goto(i, k, AfterReturnCheck(i.attempts[k].row)).(row := if i.row.Some? then Some(FreeBytes(i.row.value, now)) else None)
    case DoSend(landed, ok) => SendTried(i, k, landed, ok)
    case DoConfirm(landed, ok) => ConfirmTried(i, k, landed, ok)
    case DoMarkReturned =>
      Goto(i, k, Finish).(row := if i.row.Some? then Some(MarkReturned(i.row.value, now)) else None)
    case DoFinish =>
      Goto(i, k, Booking).(row := if i.row.Some? then Some(MarkDone(i.row.value, now)) else None, log := Closed(i))
    case DoBook => BookCompletion(i, k, now)
  }

  function Limit(c: Config, post: bool): int {
    if post then c.returnMaxAttempts else c.maxStoreAttempts
  }

  function SettleAttempt(c: Config, i: Intent, k: nat, nextAt: int, error: string, now: int): Intent
    requires k < |i.attempts| && i.attempts[k].settle.Pending?
  {
    var a := i.attempts[k];
    var attempts := a.row.attempts + 1;
    var moved := Moved(i, k, a.(settle := Settled));
    if attempts >= Limit(c, a.settle.post) then moved.(row := Killed(i.row, error, now), log := Closed(i))
    else moved.(row := if i.row.Some? then Some(Reschedule(i.row.value, attempts, nextAt, error, now)) else None)
  }

  function ApplyControl(c: Config, i: Intent, k: nat, r: Control, now: int): Intent
    requires k < |i.attempts| && ControlReady(i.attempts[k], r)
  {
    var a := i.attempts[k];
    match r
    case Throw => Moved(i, k, Failed(a, false)).(log := i.log.(lost := i.log.lost + LostUpload(a)))
    case Timeout => Moved(i, k, a.(settle := Pending(false)))
    case SettleRow(nextAt, error) => SettleAttempt(c, i, k, nextAt, error, now)
    case SettleLost => Moved(i, k, a.(settle := Settled)).(log := i.log.(crashed := i.log.crashed + 1))
    case Kill =>
      Moved(i, k, a.(pc := Ended, settle := Settled)).(
        log := i.log.(crashed := i.log.crashed + 1, lost := i.log.lost + LostUpload(a)))
  }

  function ApplySweep(c: Config, i: Intent, b: Backfill, now: int): Intent
    requires SweepReady(i, b)
  {
    match b
    case ReadPending => i.(jobs := i.jobs + [Job(i.row.value, RowRead)])
    case JobRecord(j, commitment, landed, ok) =>
      i.(jobs := i.jobs[j := i.jobs[j].(stage := if ok then EntryWritten else Over)],
         entry := Inserted(i, landed, BackfillStore(i.jobs[j].row, commitment), c, now))
    case JobMark(j, landed) =>
      i.(jobs := i.jobs[j := i.jobs[j].(stage := Over)], row := RowLedgered(i.row, landed))
  }

  function Apply(c: Config, i: Intent, st: Step): Intent
    requires Ready(i, st)
  {
    match st
    case External(o, now) => ApplyExternal(i, o, now)
    case ClaimRow(proc, leaseMs, start, now) => ApplyClaim(i, proc, leaseMs, start, now)
    case Checking(k, p, now) => ApplyCheck(c, i, k, p, now)
    case Buying(k, b, now) => ApplyBuy(c, i, k, b, now)
    case Registering(k, g, now) => ApplyRegister(c, i, k, g, now)
    case Delivering(k, d, now) => ApplyDeliver(i, k, d, now)
    case Controlling(k, r, now) => ApplyControl(c, i, k, r, now)
    case Sweeping(f, now) => ApplySweep(c, i, f, now)
  }

  // ---------- runs ----------

  /** Every step of the run is enabled where it is taken. */
  predicate IsRun(c: Config, i: Intent, run: seq<Step>)
    decreases |run|
  {
    run == [] || (Enabled(c, i, run[0]) && IsRun(c, Apply(c, i, run[0]), run[1..]))
  }

  function After(c: Config, i: Intent, run: seq<Step>): Intent
    requires IsRun(c, i, run)
    decreases |run|
  {
    if run == [] then i else After(c, Apply(c, i, run[0]), run[1..])
  }

  /** A run followed by one enabled step is a run. */
  lemma {:induction false} RunExtends(c: Config, i: Intent, run: seq<Step>, s: Intent, st: Step)
    requires IsRun(c, i, run) && After(c, i, run) == s && Enabled(c, s, st)
    ensures IsRun(c, i, run + [st]) && After(c, i, run + [st]) == Apply(c, s, st)
    decreases |run|
  {
    if run == [] {
      assert run + [st] == [st];
      assert [st][1..] == [];
    } else {
      assert (run + [st])[1..] == run[1..] + [st];
      RunExtends(c, Apply(c, i, run[0]), run[1..], s, st);
    }
  }
}
