/**
  One relayer process: the claim tick, runStore() and the store() pipeline, against the real tables.
  `world` is the history the tables are a projection of; every statement below takes one protocol step of it,
  and between two statements other processes take theirs.
 */
module IntentProcessors {
  import opened Wrappers
  import opened StagedTable
  import opened StagedIntentStores
  import opened StagedBytesBudget
  import opened ByteRecovery
  import opened OpsLedger
  import opened OpsLedgerService
  import opened IntentProtocol
  import opened IntentRuns
  import opened Fleet
  import opened ProcessorWorld
  import opened ProcessorSteps
  import opened BreakEvenService
  import opened Settlement
  import Pricing
  import StoreEpochs

  /** What one activation of store() meets outside the process. */
  datatype Oracle = Oracle(
    others: Pc -> seq<Fleet.Move>,       // steps of other processes before each statement
    fails: Pc -> bool,             // the statement, or the lost answer of the one before it
    timeoutAt: Option<Pc>, clock: Pc -> int,
    onSuiEpochs: Option<int>, walrusMax: int,
    terms: Option<Escrow>, market: Market,
    uploaded: UploadResult, executed: Option<string>, ledgerFault: Fault,
    sendLands: bool, sendAnswers: bool, confirmLands: bool, confirmAnswers: bool,
    outcomeLost: bool, error: string)

  /** No statement fails and nobody else moves. */
  ghost predicate Quiet(o: Oracle) {
    (forall pc :: !o.fails(pc) && o.others(pc) == []) && o.timeoutAt.None?
  }

  /** One activation: the row as claimed, its commitment, and its place among the intent's attempts. */
  datatype Session = Session(id: string, k: nat, row: Row, commitment: IntentCommitment, o: Oracle)

  /** A commitment is known, and names its sender. */
  predicate HasSender(commitment: Option<IntentCommitment>) {
    commitment.Some? && commitment.value.sender != ""
  }

  function Listed<T>(o: Option<T>): seq<T> {
    if o.Some? then [o.value] else []
  }

  lemma PowerDoubles(base: nat, n: nat)
    ensures base * Pow2(n + 1) == 2 * (base * Pow2(n)) && base * Pow2(0) == base
  {
    assert Pow2(n + 1) == 2 * Pow2(n);
  }

  /** How store() ended: settled the row, refused it before any spend, or threw. */
  datatype Outcome = Completed | Refused | Threw(post: bool)

  class IntentProcessor {
    const c: Config
    const proc: string
    const staged: StagedIntentStore
    const entries: StorageOpLedgerStore
    const ledger: StorageOpLedger
    const reconciler: SettlementReconciler
    const storeConcurrency: nat
    const batchSize: nat
    const backoffBaseMs: nat
    const backoffCapMs: nat
    const tickWatchdogMs: int
    var inProcess: set<string>
    var tickStartedAt: Option<int>
    var recovering: bool
    var world: World
    ghost var origin: World

    constructor (c: Config, proc: string, staged: StagedIntentStore, entries: StorageOpLedgerStore, ledger: StorageOpLedger,
                 reconciler: SettlementReconciler, storeConcurrency: nat, batchSize: nat, backoffBaseMs: nat,
                 backoffCapMs: nat, tickWatchdogMs: int, world: World)
      requires 1 <= c.maxStoreAttempts && 1 <= c.returnMaxAttempts && 1 <= c.defaultEpochs
      requires staged.claimant == proc && ledger.staged == staged && ledger.ledger == entries && ledger.network == c.network
      requires EachReachable(c, world) && staged.rows == TableOf(world) && entries.rows == LedgerOf(world)
      requires Books(world, proc, reconciler.ledger.entries)
      ensures Valid() && this.world == world && inProcess == {} && tickStartedAt.None? && !recovering
    {
      this.c, this.proc, this.staged, this.entries, this.ledger := c, proc, staged, entries, ledger;
      this.reconciler, this.storeConcurrency, this.batchSize := reconciler, storeConcurrency, batchSize;
      this.backoffBaseMs, this.backoffCapMs, this.tickWatchdogMs := backoffBaseMs, backoffCapMs, tickWatchdogMs;
      this.world, this.origin, inProcess, tickStartedAt, recovering := world, world, {}, None, false;
    }

    /** The tables are the world's, every intent got where it is by protocol steps, and the book is kept. */
    ghost predicate Valid()
      reads this`world, this`origin, staged, entries, reconciler.ledger
    {
      Sane() && staged.rows == TableOf(world) && entries.rows == LedgerOf(world)
    }

    /** Valid but for the tables, which a statement changes just before the world follows. */
    ghost predicate Sane()
      reads this`world, reconciler.ledger
    {
      && 1 <= c.maxStoreAttempts && 1 <= c.returnMaxAttempts && 1 <= c.defaultEpochs
      && staged.claimant == proc && ledger.staged == staged && ledger.ledger == entries && ledger.network == c.network
      && EachReachable(c, world) && Books(world, proc, reconciler.ledger.entries)
    }

    ghost function Mine(s: Session): Attempt
      reads this`world
      requires s.k < |At(world, s.id).attempts|
    {
      At(world, s.id).attempts[s.k]
    }

    /** The session is this process's attempt, and the only one of its attempts to have moved since `origin`. */
    ghost predicate Bound(s: Session)
      reads this`world, this`origin
    {
      && s.k < |At(world, s.id).attempts| && Mine(s).proc == proc
      && Mine(s).row == s.row && Mine(s).commitment == s.commitment
      && OwnKept(origin, world, proc, s.id, s.k)
    }

    /** What the process relies on from one statement to the next. */
    ghost function Frame(): ProcessorSteps.Frame
      reads this`origin, reconciler.ledger
    {
      ProcessorSteps.Frame(origin, proc, reconciler.ledger.entries)
    }

    // ---------- between statements ----------

    /** Other processes run. */
    method Interleave(s: Session, moves: seq<Fleet.Move>)
      requires Valid() && Bound(s)
      modifies this`world, staged, entries
      ensures Valid() && Bound(s) && Mine(s) == old(Mine(s))
      ensures moves == [] ==> world == old(world) && staged.rows == old(staged.rows) && entries.rows == old(entries.rows)
    {
      world := TakeForeign(c, world, proc, moves, s.id, s.k, Frame());
      staged.rows := TableOf(world);
      entries.rows := LedgerOf(world);
    }

    // ---------- failure: runStore's catch ----------

    function Backoff(attempts: int): (delay: nat)
      ensures delay <= backoffCapMs
    {
      var grown := backoffBaseMs * Pow2(attempts);
      if grown <= backoffCapMs then grown else backoffCapMs
    }

    /** The base for no attempt, then twice the delay before it, never past the cap. */
    lemma BackoffDoubles(attempts: nat)
      ensures Backoff(0) == if backoffBaseMs < backoffCapMs then backoffBaseMs else backoffCapMs
      ensures Backoff(attempts + 1) == if 2 * Backoff(attempts) < backoffCapMs then 2 * Backoff(attempts) else backoffCapMs
    {
      PowerDoubles(backoffBaseMs, attempts);
    }

    /** The attempt counts: dead-letter at the phase's cap, else retry later with the lease released. */
    method OnFailure(s: Session, post: bool, now: int)
      requires Valid() && Bound(s) && Mine(s).settle == Pending(post)
      modifies this`world, staged
      ensures Valid() && Bound(s) && Mine(s) == old(Mine(s)).(settle := Settled)
      ensures s.o.outcomeLost ==> staged.rows == old(staged.rows)
      ensures !s.o.outcomeLost ==> staged.rows == AfterFailure(old(staged.rows), s, post, now)
    {
      if s.o.outcomeLost {
        world := TakeSettleLost(c, world, s.id, s.k, now, Frame());
      } else {
        SettleOutcome(s, post, now, now + Backoff(s.row.attempts + 1));
      }
    }

    method SettleOutcome(s: Session, post: bool, now: int, nextAt: int)
      requires Valid() && Bound(s) && Mine(s).settle == Pending(post)
      requires nextAt == now + Backoff(s.row.attempts + 1)
      modifies this`world, staged
      ensures Valid() && Bound(s) && Mine(s) == old(Mine(s)).(settle := Settled)
      ensures staged.rows == AfterFailure(old(staged.rows), s, post, now)
    {
      WriteOutcome(s, post, now);
      world := TakeSettle(c, world, s.id, s.k, nextAt, s.o.error, now, Frame());
    }

    function AfterFailure(t: Table, s: Session, post: bool, now: int): Table {
      FailedTable(t, s.id, s.row.attempts + 1, Limit(c, post), now + Backoff(s.row.attempts + 1), s.o.error, now)
    }

    /** Dead at the phase's cap, else due again after base * 2^attempts milliseconds, or the cap on those, and released. */
    lemma FailureIs(t: Table, s: Session, post: bool, now: int)
      requires s.id in t
      ensures var attempts, r := s.row.attempts + 1, t[s.id];
              var grown := backoffBaseMs * Pow2(attempts);
              AfterFailure(t, s, post, now)
              == t[s.id := if attempts >= (if post then c.returnMaxAttempts else c.maxStoreAttempts)
                           then r.(state := Dead, bytes := None, lastError := Some(s.o.error), updatedAt := now)
                           else r.(attempts := attempts, lastError := Some(s.o.error), updatedAt := now,
                                   nextAttemptAt := now + (if grown <= backoffCapMs then grown else backoffCapMs),
                                   claimedBy := None, leaseExpiresAt := None)]
    {
    }

    method WriteOutcome(s: Session, post: bool, now: int)
      modifies staged
      ensures staged.rows == AfterFailure(old(staged.rows), s, post, now)
    {
      var attempts := s.row.attempts + 1;
      if attempts >= Limit(c, post) {
        staged.MarkDead(s.id, s.o.error, now);
      } else {
        staged.Reschedule(s.id, attempts, now + Backoff(attempts), s.o.error, now);
      }
    }

    // ---------- reaching the next statement ----------

    /** The attempt but for the race against its timeout. */
    ghost function Work(a: Attempt): Attempt {
      a.(settle := Open)
    }

    ghost predicate Running(s: Session)
      reads this`world, this`origin, staged, entries, reconciler.ledger
    {
      Valid() && Bound(s) && Working(Mine(s)) && !Mine(s).settle.Pending?
      && (s.o.timeoutAt.None? ==> Mine(s).settle.Open?)
    }

    ghost predicate Thrown(s: Session, post: bool)
      reads this`world, this`origin, staged, entries, reconciler.ledger
    {
      Valid() && Bound(s) && Mine(s).pc == Ended && (Mine(s).settle == Pending(post) || Mine(s).settle == Settled)
      && (s.o.timeoutAt.None? ==> Mine(s).settle.Pending?)
    }

    /** store() throws out of the statement it was at. */
    method ThrowOut(s: Session, now: int)
      requires Running(s) && Mine(s).pc !in {Confirm, Mark}
      modifies this`world
      ensures Thrown(s, false)
      ensures Unspent(s, old(world))
    {
      world := TakeThrow(c, world, s.id, s.k, now, Frame());
    }

    /** Others run, the timeout may fire and settle the row under the running work, and the statement may fail. */
    method Arrive(s: Session) returns (ok: bool)
      requires Running(s) && Mine(s).pc !in {Confirm, Mark}
      modifies this`world, staged, entries
      ensures ok ==> Running(s) && Work(Mine(s)) == Work(old(Mine(s)))
      ensures !ok ==> Thrown(s, false)
      ensures Quiet(s.o) ==> ok && staged.rows == old(staged.rows) && entries.rows == old(entries.rows) && world == old(world)
    {
      Wait(s);
      var pc := At(world, s.id).attempts[s.k].pc;
      ok := !s.o.fails(pc);
      if !ok {
        ThrowOut(s, s.o.clock(pc));
      }
    }

    method Wait(s: Session)
      requires Running(s)
      modifies this`world, staged, entries
      ensures Running(s) && Work(Mine(s)) == Work(old(Mine(s)))
      ensures Quiet(s.o) ==> staged.rows == old(staged.rows) && entries.rows == old(entries.rows) && world == old(world)
    {
      var pc := At(world, s.id).attempts[s.k].pc;
      Interleave(s, s.o.others(pc));
      if s.o.timeoutAt == Some(pc) && At(world, s.id).attempts[s.k].settle.Open? {
        world := TakeTimeout(c, world, s.id, s.k, s.o.clock(pc), Frame());
        OnFailure(s, false, s.o.clock(pc));
      }
    }

    // ---------- store(), before any spend ----------

    /** A check lets the attempt go on. */
    method Pass(s: Session, p: Check, now: int)
      requires Running(s) && CheckReady(Mine(s), p) && CheckOutcome(c, Mine(s), p).Go?
      requires Truthful(c, At(world, s.id), Checking(s.k, p, now))
      modifies this`world
      ensures Running(s) && Work(Mine(s)) == Work(CheckOutcome(c, old(Mine(s)), p).a)
      ensures Unspent(s, old(world))
    {
      world := TakeCheck(c, world, s.id, s.k, p, now, Frame());
    }

    /** The row was refused and is dead: this attempt bought nothing. */
    ghost predicate RefusedRow(s: Session)
      reads this`world, this`origin, staged, entries, reconciler.ledger
    {
      Valid() && Bound(s) && Mine(s).pc == Ended && !Mine(s).settle.Pending?
      && (s.id in staged.rows ==> staged.rows[s.id].state == Dead && staged.rows[s.id].bytes.None?)
    }

    /** The process's book has an entry for the intent. */
    predicate HasBooked(id: string)
      reads reconciler.ledger
    {
      Recorded(reconciler.ledger.entries, id)
    }

    /** No WAL was spent on the intent since `was`. */
    ghost predicate Unspent(s: Session, was: World)
      reads this`world
    {
      At(world, s.id).log.uploads == At(was, s.id).log.uploads
    }

    /** A check refuses the intent: the row is dead-lettered. */
    method Refuse(s: Session, p: Check, error: string, now: int)
      requires Running(s) && CheckReady(Mine(s), p) && CheckOutcome(c, Mine(s), p) == Stop(error, false)
      requires Truthful(c, At(world, s.id), Checking(s.k, p, now))
      modifies this`world, staged
      ensures RefusedRow(s) && Unspent(s, old(world))
      ensures staged.rows == Updated(old(staged.rows), s.id, r => StagedTable.MarkDead(r, error, now))
    {
      staged.MarkDead(s.id, error, now);
      world := TakeStop(c, world, s.id, s.k, p, error, now, Frame());
    }

    /** A priced refusal, which in addition books a skip. */
    method RefuseAndBook(s: Session, p: Check, error: string, now: int)
      requires Running(s) && CheckReady(Mine(s), p) && CheckOutcome(c, Mine(s), p) == Stop(error, true)
      requires Truthful(c, At(world, s.id), Checking(s.k, p, now))
      modifies this`world, staged, reconciler.ledger
      ensures RefusedRow(s) && Unspent(s, old(world)) && HasBooked(s.id)
      ensures reconciler.ledger.entries == Book(old(reconciler.ledger.entries), SkipEntry(s.id, now))
    {
      ghost var g := Frame();
      BookRecords(reconciler.ledger.entries, SkipEntry(s.id, now));
      staged.MarkDead(s.id, error, now);
      var e := reconciler.RecordSkip(s.id, now);
      world := TakeSkip(c, world, s.id, s.k, p, error, now, g);
    }

    /** How an attempt that no longer runs left the row. */
    ghost predicate Stopped(s: Session, out: Outcome)
      reads this`world, this`origin, staged, entries, reconciler.ledger
    {
      match out
      case Refused => RefusedRow(s)
      case Threw(post) => Thrown(s, post)
      case Completed => DeliveredRow(s)
    }

    /** Stopped short of the end. */
    ghost predicate Halted(s: Session, out: Outcome)
      reads this`world, this`origin, staged, entries, reconciler.ledger
    {
      match out
      case Refused => RefusedRow(s)
      case Threw(post) => Thrown(s, post)
      case Completed => false
    }

    /** Threw, past every refusal. */
    ghost predicate Fell(s: Session, out: Outcome)
      reads this`world, this`origin, staged, entries, reconciler.ledger
    {
      out.Threw? && Thrown(s, out.post)
    }

    /** The row is done with nothing left to do, whatever others did meanwhile. */
    ghost predicate DeliveredRow(s: Session)
      reads this`world, this`origin, staged, entries, reconciler.ledger
    {
      && Valid() && Bound(s) && Mine(s).pc == Ended && !Mine(s).settle.Pending?
      && (Uncut(At(world, s.id)) ==> s.id in staged.rows && Delivered(staged.rows[s.id]))
    }

    /** The row's blob id is the one committed to. */
    predicate Matches(s: Session) {
      c.blobIdMatches(s.row.blobId.GetOr(""), s.commitment.committedBlobId.Or(s.row.committedBlobId).GetOr(ZERO_REF))
    }

    /** Since `was`, the row was dead-lettered for its blob id, no other row was touched and no WAL spent. */
    ghost predicate DeadUnspent(s: Session, was: World)
      reads this`world, staged
    {
      && staged.rows == MismatchTable(TableOf(was), s.id, s.o.clock(Verify))
      && Unspent(s, was)
    }

    function MismatchTable(t: Table, id: string, now: int): Table {
      if id in t then t[id := t[id].(state := Dead, bytes := None, lastError := Some("blob id mismatch"), updatedAt := now)] else t
    }

    /** Re-verify the blob id against the commitment: only a match goes on. */
    method VerifyBlob(s: Session) returns (stop: Option<Outcome>)
      requires Running(s) && Mine(s).pc == Verify
      modifies this`world, staged, entries, reconciler.ledger
      ensures stop.None? ==> Running(s) && Work(Mine(s)) == Work(old(Mine(s)).(pc := Resolve))
      ensures stop.None? ==> Matches(s)
      ensures Quiet(s.o) && Matches(s) ==> stop.None? && staged.rows == old(staged.rows)
      ensures Quiet(s.o) && !Matches(s) ==> stop == Some(Refused) && DeadUnspent(s, old(world))
      ensures stop == Some(Refused) ==> !Matches(s)
      ensures reconciler.ledger.entries == old(reconciler.ledger.entries)
      ensures stop.Some? ==> Halted(s, stop.value)
      ensures Quiet(s.o) ==> Unspent(s, old(world))
    {
      var ok := Arrive(s);
      if !ok {
        return Some(Threw(false));
      }
      var committedRef := s.commitment.committedBlobId.Or(s.row.committedBlobId).GetOr(ZERO_REF);
      if !c.blobIdMatches(s.row.blobId.GetOr(""), committedRef) {
        Refuse(s, DoVerify, "blob id mismatch", s.o.clock(Verify));
        return Some(Refused);
      }
      Pass(s, DoVerify, s.o.clock(Verify));
      stop := None;
    }

    /** Whether store() may buy for the committed duration, or has already bought. */
    ghost predicate Durable(s: Session) {
      s.row.upload.Some? || StoreEpochs.ResolveWithLiveCap(
        s.row.storageEpochs.Or(s.o.onSuiEpochs), c.defaultEpochs, c.maxEpochs, s.o.walrusMax).Accepted?
    }

    /** The committed epochs, one for none of them, the default without a commitment; for a row with its object the commitment stands, whatever the caps. */
    function Duration(s: Session): int {
      var committed := s.row.storageEpochs.Or(s.o.onSuiEpochs);
      if committed.Some? then (if committed.value < 1 then 1 else committed.value)
      else if c.defaultEpochs <= c.maxEpochs && c.defaultEpochs <= s.o.walrusMax then c.defaultEpochs
      else 1
    }

    /** The duration to store for: the committed one, else what Sui says, else the legacy default. */
    method ChooseEpochs(s: Session) returns (committed: Option<int>, epochs: Option<int>)
      ensures committed == s.row.storageEpochs.Or(s.o.onSuiEpochs)
      ensures forall a: Attempt :: a.row == s.row ==>
        Resolved(c, a, s.o.onSuiEpochs, s.o.walrusMax)
        == match epochs
           case Some(n) => Go(a.(committed := committed, epochs := n, pc := Guard))
           case None => Stop("storage epochs rejected", true)
      ensures epochs.Some? && 1 <= c.defaultEpochs ==> 1 <= epochs.value
      ensures epochs.Some? <==> Durable(s)
      ensures epochs.Some? ==> epochs.value == Duration(s)
    {
      committed := s.row.storageEpochs;
      if committed.None? {
        committed := s.o.onSuiEpochs;
      }
      var resolution := StoreEpochs.ResolveWithLiveCap(committed, c.defaultEpochs, c.maxEpochs, s.o.walrusMax);
      if resolution.Rejected? && s.row.upload.Some? {
        epochs := Some(StoreEpochs.Max(committed.GetOr(0), StoreEpochs.WALRUS_MIN_EPOCHS));
      } else if resolution.Rejected? {
        epochs := None;
      } else {
        epochs := Some(resolution.epochs);
      }
    }

    method ResolveEpochs(s: Session) returns (stop: Option<Outcome>, epochs: int)
      requires Running(s) && Mine(s).pc == Resolve
      modifies this`world, staged, entries, reconciler.ledger
      ensures stop.None? ==> Running(s) && epochs == Duration(s)
      ensures stop.None? ==>
        Work(Mine(s)) == Work(old(Mine(s)).(pc := Guard, epochs := epochs, committed := s.row.storageEpochs.Or(s.o.onSuiEpochs)))
      ensures stop.None? && 1 <= c.defaultEpochs ==> 1 <= epochs
      ensures Quiet(s.o) && Durable(s) ==> stop.None? && staged.rows == old(staged.rows)
      ensures stop.Some? ==> Halted(s, stop.value)
      ensures stop == Some(Refused) ==> HasBooked(s.id)
      ensures stop.None? ==> reconciler.ledger.entries == old(reconciler.ledger.entries)
      ensures Quiet(s.o) ==> Unspent(s, old(world))
      ensures Quiet(s.o) && !Durable(s) ==> stop == Some(Refused)
    {
      var ok := Arrive(s);
      if !ok {
        return Some(Threw(false)), 0;
      }
      var committed, chosen := ChooseEpochs(s);
      if chosen.None? {
        RefuseDuration(s);
        return Some(Refused), 0;
      }
      Pass(s, DoResolve(s.o.onSuiEpochs, s.o.walrusMax), s.o.clock(Resolve));
      stop, epochs := None, chosen.value;
    }

    method RefuseDuration(s: Session)
      requires Running(s) && Mine(s).pc == Resolve
      requires Resolved(c, Mine(s), s.o.onSuiEpochs, s.o.walrusMax) == Stop("storage epochs rejected", true)
      modifies this`world, staged, reconciler.ledger
      ensures RefusedRow(s) && HasBooked(s.id)
      ensures Unspent(s, old(world))
    {
      RefuseAndBook(s, DoResolve(s.o.onSuiEpochs, s.o.walrusMax), "storage epochs rejected", s.o.clock(Resolve));
    }

    /** The guard has nothing to say: it is off, the WAL is already spent, or there is no escrow to weigh. */
    ghost predicate Ungated(s: Session) {
      !c.guardEnabled || s.row.upload.Some? || s.o.terms.None?
    }

    /** The guard lets the spend through, or has nothing to say. */
    ghost predicate Affords(s: Session, epochs: int) {
      !Ungated(s) ==> var answer := c.guard(s.row.size.GetOr(0), epochs, s.o.terms.value, s.o.market);
                      answer.Success? && answer.value.proceed
    }

    /** The guard weighs the escrow and finds it short. */
    ghost predicate Declined(s: Session, epochs: int) {
      !Ungated(s) && var answer := c.guard(s.row.size.GetOr(0), epochs, s.o.terms.value, s.o.market);
                     answer.Success? && !answer.value.proceed
    }

    /** What the attempt remembers of the guard once it has answered. */
    function GuardingOf(s: Session, verdict: Pricing.Decision): Guarding {
      if !c.guardEnabled || s.row.upload.Some? then NotAsked
      else if s.o.terms.None? then NoTerms
      else Answered(s.o.terms.value, verdict)
    }

    /** The guard lets the attempt go on. */
    predicate Allows(s: Session, verdict: Pricing.Decision) {
      GuardingOf(s, verdict).Answered? ==> verdict.proceed
    }

    lemma GuardGoes(s: Session, a: Attempt, verdict: Pricing.Decision)
      requires a.row == s.row && a.guarding.NotAsked?
      ensures GuardAnswered(c, a, s.o.terms, verdict)
           == if Allows(s, verdict) then Go(a.(pc := AfterGuard(c, s.row), guarding := GuardingOf(s, verdict)))
              else Stop("break-even guard skip", true)
    {
    }

    /** The guard's answer for this row, duration and escrow; no answer when a price or the cost cannot be read. */
    method Weigh(s: Session, epochs: int) returns (verdict: Result<Pricing.Decision>)
      ensures verdict.Success? ==> Asked(s, epochs, verdict.value)
      ensures Ungated(s) ==> verdict.Success?
      ensures !Ungated(s) ==> verdict == c.guard(s.row.size.GetOr(0), epochs, s.o.terms.value, s.o.market)
    {
      if c.guardEnabled && s.row.upload.None? && s.o.terms.Some? {
        verdict := c.guard(s.row.size.GetOr(0), epochs, s.o.terms.value, s.o.market);
      } else {
        verdict := Success(Pricing.Decision(false, 0.0, 0.0, 0.0, 0.0, None));
      }
    }

    /** The never-lose-money gate: nothing is spent unless the escrow covers the cost of this very duration. */
    method Gate(s: Session, epochs: int) returns (stop: Option<Outcome>, guarding: Guarding)
      requires Running(s) && Mine(s).pc == Guard && Mine(s).epochs == epochs && Mine(s).guarding.NotAsked?
      modifies this`world, staged, entries, reconciler.ledger
      ensures stop.None? ==> Running(s) && Work(Mine(s)) == Work(old(Mine(s)).(pc := AfterGuard(c, s.row), guarding := guarding))
      ensures stop.None? && !Ungated(s) ==> guarding.Answered? && guarding.decision.proceed && Asked(s, epochs, guarding.decision)
      ensures Quiet(s.o) && Affords(s, epochs) ==> stop.None?
      ensures Quiet(s.o) && Declined(s, epochs) ==> stop == Some(Refused)
      ensures Quiet(s.o) && stop.None? ==> staged.rows == old(staged.rows)
      ensures stop.Some? ==> Halted(s, stop.value)
      ensures stop == Some(Refused) ==> HasBooked(s.id)
      ensures stop.None? ==> reconciler.ledger.entries == old(reconciler.ledger.entries)
      ensures Quiet(s.o) ==> Unspent(s, old(world))
    {
      var ok := Arrive(s);
      if !ok {
        return Some(Threw(false)), NotAsked;
      }
      stop, guarding := AskGuard(s, epochs);
    }

    method AskGuard(s: Session, epochs: int) returns (stop: Option<Outcome>, guarding: Guarding)
      requires Running(s) && Mine(s).pc == Guard && Mine(s).epochs == epochs && Mine(s).guarding.NotAsked?
      modifies this`world, staged, reconciler.ledger
      ensures stop.None? ==> Running(s) && Work(Mine(s)) == Work(old(Mine(s)).(pc := AfterGuard(c, s.row), guarding := guarding))
      ensures stop.None? && !Ungated(s) ==> guarding.Answered? && guarding.decision.proceed && Asked(s, epochs, guarding.decision)
      ensures Affords(s, epochs) ==> stop.None?
      ensures Declined(s, epochs) ==> stop == Some(Refused)
      ensures stop.None? ==> staged.rows == old(staged.rows)
      ensures stop.Some? ==> Halted(s, stop.value)
      ensures stop == Some(Refused) ==> HasBooked(s.id)
      ensures stop.None? ==> reconciler.ledger.entries == old(reconciler.ledger.entries)
      ensures Unspent(s, old(world))
    {
      var verdict := Weigh(s, epochs);
      guarding := NotAsked;
      if verdict.Failure? {
        ThrowOut(s, s.o.clock(Guard));
        return Some(Threw(false)), guarding;
      }
      if !Allows(s, verdict.value) {
        RefuseSpend(s, verdict.value);
        return Some(Refused), guarding;
      }
      AllowSpend(s, verdict.value);
      stop, guarding := None, GuardingOf(s, verdict.value);
    }

    /** The verdict is the guard's, where the guard was asked. */
    ghost predicate Asked(s: Session, epochs: int, verdict: Pricing.Decision) {
      Ungated(s) || c.guard(s.row.size.GetOr(0), epochs, s.o.terms.value, s.o.market) == Success(verdict)
    }

    method AllowSpend(s: Session, verdict: Pricing.Decision)
      requires Running(s) && Mine(s).pc == Guard && Mine(s).guarding.NotAsked? && Asked(s, Mine(s).epochs, verdict)
      requires Allows(s, verdict)
      modifies this`world
      ensures Running(s) && Work(Mine(s)) == Work(old(Mine(s)).(pc := AfterGuard(c, s.row), guarding := GuardingOf(s, verdict)))
      ensures Unspent(s, old(world))
    {
      GuardGoes(s, Mine(s), verdict);
      Pass(s, DoGuard(s.o.terms, s.o.market, verdict), s.o.clock(Guard));
    }

    method RefuseSpend(s: Session, verdict: Pricing.Decision)
      requires Running(s) && Mine(s).pc == Guard && Mine(s).guarding.NotAsked? && Asked(s, Mine(s).epochs, verdict)
      requires !Allows(s, verdict)
      modifies this`world, staged, reconciler.ledger
      ensures RefusedRow(s)
      ensures HasBooked(s.id)
      ensures Unspent(s, old(world))
    {
      GuardGoes(s, Mine(s), verdict);
      RefuseAndBook(s, DoGuard(s.o.terms, s.o.market, verdict), "break-even guard skip", s.o.clock(Guard));
    }

    // ---------- store(): the upload ----------

    ghost predicate HasBytes(s: Session)
      reads staged
    {
      s.id in staged.rows && staged.rows[s.id].bytes.Some?
    }

    /** The bytes read, or none: then store() throws. */
    method TakeBytes(s: Session, now: int) returns (ok: bool)
      requires Running(s) && Mine(s).pc == Fetch
      modifies this`world
      ensures ok ==> Running(s) && Mine(s).pc.Uploading? && Work(Mine(s)) == Work(old(Mine(s)).(pc := Mine(s).pc))
      ensures ok <==> old(HasBytes(s))
      ensures ok ==> Mine(s).pc.payload == old(staged.rows[s.id].bytes.value)
      ensures !ok ==> Thrown(s, false)
    {
      var bytes := staged.FetchBytes(s.id);
      world := TakeFetch(c, world, s.id, s.k, now, Frame());
      ok := bytes.Some?;
    }

    /** WAL is spent here. */
    method Upload(s: Session, now: int)
      requires Running(s) && Mine(s).pc.Uploading? && 1 <= Mine(s).epochs
      modifies this`world
      ensures Running(s) && Work(Mine(s)) == Work(old(Mine(s)).(pc := PersistUp, up := Some(s.o.uploaded)))
    {
      world := TakeUpload(c, world, s.id, s.k, s.o.uploaded, now, Frame());
    }

    method SaveUpload(s: Session, up: UploadResult, now: int)
      requires Running(s) && Mine(s).pc == PersistUp && Mine(s).up == Some(up) && s.row.upload.None?
      modifies this`world, staged
      ensures Running(s) && Work(Mine(s)) == Work(old(Mine(s)).(pc := AfterUpload(c, s.row)))
    {
      staged.PersistUpload(s.id, up, now);
      world := TakePersistUpload(c, world, s.id, s.k, up, now, Frame());
    }

    method UploadBytes(s: Session) returns (stop: Option<Outcome>)
      requires Running(s) && Mine(s).pc == Fetch && 1 <= Mine(s).epochs
      modifies this`world, staged, entries, reconciler.ledger
      ensures stop.None? ==> Running(s) && Work(Mine(s)) == Work(old(Mine(s)).(pc := PersistUp, up := Some(s.o.uploaded)))
      ensures Quiet(s.o) && old(HasBytes(s)) ==> stop.None?
      ensures stop.Some? ==> Fell(s, stop.value)
    {
      stop := Some(Threw(false));
      var ok := Arrive(s);
      if !ok { return; }
      ok := TakeBytes(s, s.o.clock(Fetch));
      if !ok { return; }
      ok := Arrive(s);
      if !ok { return; }
      Upload(s, s.o.clock(Uploading([])));
      stop := None;
    }

    method KeepUpload(s: Session, up: UploadResult) returns (stop: Option<Outcome>)
      requires Running(s) && Mine(s).pc == PersistUp && Mine(s).up == Some(up) && s.row.upload.None?
      modifies this`world, staged, entries, reconciler.ledger
      ensures stop.None? ==> Running(s) && Work(Mine(s)) == Work(old(Mine(s)).(pc := AfterUpload(c, s.row)))
      ensures Quiet(s.o) ==> stop.None?
      ensures stop.Some? ==> Fell(s, stop.value)
    {
      var ok := Arrive(s);
      if !ok { return Some(Threw(false)); }
      SaveUpload(s, up, s.o.clock(PersistUp));
      stop := None;
    }

    /** Upload for `epochs` and persist the object before anything else uses it. */
    method BuyStorage(s: Session) returns (stop: Option<Outcome>, up: UploadResult)
      requires Running(s) && Mine(s).pc == Fetch && 1 <= Mine(s).epochs && s.row.upload.None?
      modifies this`world, staged, entries, reconciler.ledger
      ensures stop.None? ==> Running(s) && Work(Mine(s)) == Work(old(Mine(s)).(pc := AfterUpload(c, s.row), up := Some(up)))
      ensures Quiet(s.o) && old(HasBytes(s)) ==> stop.None?
      ensures stop.Some? ==> Fell(s, stop.value)
    {
      up := s.o.uploaded;
      stop := UploadBytes(s);
      if stop.None? {
        stop := KeepUpload(s, up);
      }
    }

    // ---------- store(): Sui and the ledger ----------

    /** execute_store: Sui refuses a second object for the intent, and then the first one stands. */
    method ExecuteStore(s: Session, now: int) returns (digest: Option<string>)
      requires Running(s) && Mine(s).pc == Execute && Mine(s).up.Some?
      modifies this`world
      ensures digest.Some? ==> Running(s) && Work(Mine(s)) == Work(old(Mine(s)).(pc := PersistDigest, digest := digest))
      ensures digest.None? ==> Thrown(s, false)
      ensures old(At(world, s.id).onSui).Some? ==> digest == Some(ALREADY_RECORDED)
      ensures s.o.executed.Some? ==> digest.Some?
    {
      var outcome := if At(world, s.id).onSui.Some? then AlreadyExecuted
                     else if s.o.executed.Some? then Landed(s.o.executed.value) else LandedButLost;
      world := TakeExecute(c, world, s.id, s.k, outcome, now, Frame());
      digest := match outcome
        case AlreadyExecuted => Some(ALREADY_RECORDED)
        case Landed(d) => Some(d)
        case LandedButLost => None;
    }

    method SaveDigest(s: Session, digest: string, now: int)
      requires Running(s) && Mine(s).pc == PersistDigest && Mine(s).digest == Some(digest)
      modifies this`world, staged
      ensures Running(s) && Work(Mine(s)) == Work(old(Mine(s)).(pc := AfterDigest(c, s.row)))
    {
      staged.PersistStore(s.id, digest, now);
      world := TakePersistStore(c, world, s.id, s.k, digest, now, Frame());
    }

    method RecordOnSui(s: Session) returns (stop: Option<Outcome>, digest: string)
      requires Running(s) && Mine(s).pc == Execute && Mine(s).up.Some?
      modifies this`world, staged, entries, reconciler.ledger
      ensures stop.None? ==> Running(s)
      ensures stop.None? ==> Work(Mine(s)) == Work(old(Mine(s)).(pc := AfterDigest(c, s.row), digest := Some(digest)))
      ensures Quiet(s.o) && s.o.executed.Some? ==> stop.None?
      ensures stop.Some? ==> Fell(s, stop.value)
    {
      stop, digest := Some(Threw(false)), "";
      var ok := Arrive(s);
      if !ok { return; }
      var answer := ExecuteStore(s, s.o.clock(Execute));
      if answer.None? { return; }
      digest := answer.value;
      ok := Arrive(s);
      if !ok { return; }
      SaveDigest(s, digest, s.o.clock(PersistDigest));
      stop := None;
    }

    /** Both tables after recordCompletedStore, whichever of its writes fails. */
    method WriteLedger(id: string, done: CompletedStore, fault: Fault, now: int)
      requires ledger.staged == staged && ledger.ledger == entries && ledger.network == c.network
      modifies staged, entries
      ensures entries.rows == if fault == RecordFails(false) then old(entries.rows)
                              else WithEntry(old(entries.rows), BuildLedgerEntry(id, done, c.network, now))
      ensures staged.rows == if fault.RecordFails? || fault == MarkFails(false) then old(staged.rows)
                             else Flagged(old(staged.rows), id)
      ensures fault.NoFault? ==> id in entries.rows
    {
      var ok := ledger.RecordCompletedStore(id, done, fault, now);
    }

    /** 3b: the ops ledger, exactly once; never throws, and a failure is left to the backfill. */
    method RecordInLedger(s: Session)
      requires Running(s) && Mine(s).pc == Record && Mine(s).up.Some? && Mine(s).digest.Some?
      modifies this`world, staged, entries
      ensures Running(s) && Work(Mine(s)) == Work(old(Mine(s)).(pc := Free))
      ensures s.o.ledgerFault.NoFault? ==> s.id in entries.rows
    {
      var now, fault := s.o.clock(Record), s.o.ledgerFault;
      var done := InlineStore(At(world, s.id).attempts[s.k]);
      WriteLedger(s.id, done, fault, now);
      world := TakeLedger(c, world, s.id, s.k, done, fault, now, Frame());
    }

    // ---------- store(): the return leg and the end ----------

    method FreeBytes(s: Session, now: int)
      requires Running(s) && Mine(s).pc == Free
      modifies this`world, staged
      ensures Running(s) && Work(Mine(s)) == Work(old(Mine(s)).(pc := AfterReturnCheck(s.row)))
    {
      staged.FreeBytes(s.id, now);
      world := TakeFree(c, world, s.id, s.k, now, Frame());
    }

    /** The LayerZero send; its failure falls back to the owner's confirmation. */
    method SendProof(s: Session, now: int) returns (ok: bool)
      requires Running(s) && Mine(s).pc == Send && Mine(s).up.Some?
      modifies this`world
      ensures Running(s)
      ensures ok <==> s.o.sendLands && s.o.sendAnswers
      ensures Work(Mine(s)) == Work(old(Mine(s)).(pc := if ok then MarkRet else Confirm, sent := s.o.sendLands))
    {
      ok := s.o.sendLands && s.o.sendAnswers;
      world := TakeSend(c, world, s.id, s.k, s.o.sendLands, ok, now, Frame());
    }

    /** Both ways failed: a post-store error, tagged so that storage is not dead-lettered for it. */
    method ConfirmExecution(s: Session, now: int) returns (ok: bool)
      requires Running(s) && Mine(s).pc == Confirm && Mine(s).up.Some?
      modifies this`world
      ensures ok <==> s.o.confirmLands && s.o.confirmAnswers
      ensures ok ==> Running(s) && Work(Mine(s)) == Work(old(Mine(s)).(pc := MarkRet))
      ensures !ok ==> Thrown(s, true)
    {
      ok := s.o.confirmLands && s.o.confirmAnswers;
      world := TakeConfirm(c, world, s.id, s.k, s.o.confirmLands, ok, now, Frame());
    }

    method SaveReturned(s: Session, now: int)
      requires Running(s) && Mine(s).pc == MarkRet
      modifies this`world, staged
      ensures Running(s) && Work(Mine(s)) == Work(old(Mine(s)).(pc := Finish))
    {
      staged.MarkReturned(s.id, now);
      world := TakeReturned(c, world, s.id, s.k, now, Frame());
    }

    /** One of the two ways back works. */
    ghost predicate ProofGoes(o: Oracle) {
      (o.sendLands && o.sendAnswers) || (o.confirmLands && o.confirmAnswers)
    }

    /** The send, and where it fails the owner's confirmation. */
    method SendOrConfirm(s: Session) returns (ok: bool)
      requires Running(s) && Mine(s).pc == Send && Mine(s).up.Some?
      modifies this`world, staged, entries
      ensures ok <==> ProofGoes(s.o)
      ensures ok ==> Running(s) && Work(Mine(s)) == Work(old(Mine(s)).(pc := MarkRet, sent := s.o.sendLands))
      ensures !ok ==> Thrown(s, true)
      ensures Quiet(s.o) ==> entries.rows == old(entries.rows)
    {
      ok := SendProof(s, s.o.clock(Send));
      Wait(s);
      if !ok {
        ok := ConfirmExecution(s, s.o.clock(Confirm));
      }
    }

    method KeepReturned(s: Session) returns (stop: Option<Outcome>)
      requires Running(s) && Mine(s).pc == MarkRet
      modifies this`world, staged, entries
      ensures stop.None? ==> Running(s) && Work(Mine(s)) == Work(old(Mine(s)).(pc := Finish))
      ensures stop.Some? ==> stop == Some(Threw(false)) && Fell(s, stop.value)
      ensures Quiet(s.o) ==> stop.None? && entries.rows == old(entries.rows)
    {
      var ok := Arrive(s);
      if !ok { return Some(Threw(false)); }
      SaveReturned(s, s.o.clock(MarkRet));
      stop := None;
    }

    method ReturnProof(s: Session) returns (stop: Option<Outcome>)
      requires Running(s) && Mine(s).pc == Send && Mine(s).up.Some?
      modifies this`world, staged, entries, reconciler.ledger
      ensures stop.None? ==> Running(s) && Mine(s).pc == Finish && Work(Mine(s)) == Work(old(Mine(s)).(pc := Finish, sent := s.o.sendLands))
      ensures Quiet(s.o) && ProofGoes(s.o) ==> stop.None?
      ensures stop.Some? ==> Fell(s, stop.value)
      ensures Quiet(s.o) && !ProofGoes(s.o) ==> stop == Some(Threw(true))
      ensures stop == Some(Threw(true)) ==> !ProofGoes(s.o)
      ensures Quiet(s.o) ==> entries.rows == old(entries.rows)
    {
      var ok := Arrive(s);
      if !ok { return Some(Threw(false)); }
      ok := SendOrConfirm(s);
      if !ok { return Some(Threw(true)); }
      stop := KeepReturned(s);
    }

    /** mark done, then book what the guard weighed. */
    method Settle(s: Session, guarding: Guarding)
      requires Running(s) && Mine(s).pc == Finish && Mine(s).guarding == guarding
      modifies this`world, staged, reconciler.ledger
      ensures DeliveredRow(s)
      ensures guarding.Answered? ==> HasBooked(s.id)
    {
      MarkDone(s, s.o.clock(Finish));
      BookProfit(s, guarding, s.o.clock(Booking));
    }

    method MarkDone(s: Session, now: int)
      requires Running(s) && Mine(s).pc == Finish
      modifies this`world, staged
      ensures Running(s) && Work(Mine(s)) == Work(old(Mine(s)).(pc := Booking))
      ensures s.id in staged.rows ==> staged.rows[s.id].state == Done
    {
      staged.MarkDone(s.id, now);
      world := TakeDone(c, world, s.id, s.k, now, Frame());
    }

    method BookProfit(s: Session, guarding: Guarding, now: int)
      requires Running(s) && Mine(s).pc == Booking && Mine(s).guarding == guarding
      requires s.id in staged.rows ==> staged.rows[s.id].state == Done
      modifies this`world, reconciler.ledger
      ensures DeliveredRow(s)
      ensures if guarding.Answered?
              then reconciler.ledger.entries == Book(old(reconciler.ledger.entries), CompletionEntry(
                     s.id, guarding.decision.escrowUsd, guarding.decision.costUsd, now))
              else reconciler.ledger.entries == old(reconciler.ledger.entries)
      ensures guarding.Answered? ==> HasBooked(s.id)
    {
      DoneIsDelivered(s);
      ghost var g := Frame();
      if guarding.Answered? {
        var d := guarding.decision;
        BookRecords(reconciler.ledger.entries, CompletionEntry(s.id, d.escrowUsd, d.costUsd, now));
        var e := reconciler.RecordCompletion(s.id, d.escrowUsd, d.costUsd, now);
        world := TakeBook(c, world, s.id, s.k, d, now, g);
      } else {
        world := TakeEnd(c, world, s.id, s.k, now, g);
      }
    }

    lemma DoneIsDelivered(s: Session)
      requires Valid() && Bound(s) && Working(Mine(s)) && (s.id in staged.rows ==> staged.rows[s.id].state == Done)
      ensures Uncut(At(world, s.id)) ==> s.id in staged.rows && Delivered(staged.rows[s.id])
    {
      WorkersSeeOrder(c, world, s.id, s.k);
    }

    // ---------- store(), whole ----------

    /** A session store() may start on: the claim has just made its attempt. */
    ghost predicate Started(s: Session)
      reads this`world, this`origin, staged, entries, reconciler.ledger
    {
      Running(s) && Work(Mine(s)) == StartAttempt(proc, s.row, s.commitment)
    }

    /** Nothing outside the row stands in the way from the upload on. */
    ghost predicate Smooth(s: Session) {
      && Quiet(s.o)
      && (s.row.storeDigest.None? ==> s.o.executed.Some?)
      && (!s.row.returned ==> ProofGoes(s.o))
    }

    /** However it ends the row is accounted for; when nothing fails matching and paid-for bytes are stored, and a mismatch is refused unspent. */
    method Store(s: Session) returns (out: Outcome)
      requires Started(s)
      modifies this`world, staged, entries, reconciler.ledger
      ensures Stopped(s, out)
      ensures Smooth(s) && Matches(s) && Durable(s) && Affords(s, Duration(s)) && (s.row.upload.Some? || old(HasBytes(s)))
              ==> out == Outcome.Completed
      ensures out == Outcome.Completed ==> Matches(s)
      ensures Quiet(s.o) && !Matches(s) ==> out == Refused && DeadUnspent(s, old(world))
      // what was weighed and stored, or refused for its price or duration, is in the book
      ensures out == Outcome.Completed && !Ungated(s) ==> HasBooked(s.id)
      ensures out == Refused && Matches(s) ==> HasBooked(s.id)
      ensures !Matches(s) ==> reconciler.ledger.entries == old(reconciler.ledger.entries)
      // a duration or an escrow that will not do is refused, and nothing spent
      ensures Quiet(s.o) && Matches(s) && (!Durable(s) || Declined(s, Duration(s))) ==> out == Refused
      ensures Quiet(s.o) && out == Refused ==> Unspent(s, old(world))
      ensures Quiet(s.o) && Ledgers(s) && out == Outcome.Completed ==> s.id in entries.rows
    {
      var stop, guarding := Clear(s);
      if stop.Some? {
        return stop.value;
      }
      out := BuyAndComplete(s, guarding);
    }

    /** Steps 2 to 6: buy unless an object is in hand, then carry it through. */
    method BuyAndComplete(s: Session, guarding: Guarding) returns (out: Outcome)
      requires Running(s) && Mine(s).pc == AfterGuard(c, s.row) && 1 <= Mine(s).epochs
      requires Mine(s).guarding == guarding && Mine(s).up == s.row.upload && Mine(s).digest == s.row.storeDigest
      modifies this`world, staged, entries, reconciler.ledger
      ensures Stopped(s, out) && !out.Refused?
      ensures Smooth(s) && (s.row.upload.Some? || old(HasBytes(s))) ==> out == Outcome.Completed
      ensures out == Outcome.Completed && guarding.Answered? ==> HasBooked(s.id)
      ensures Quiet(s.o) && Ledgers(s) && out == Outcome.Completed ==> s.id in entries.rows
    {
      var up := s.row.upload;
      if up.None? {
        var stop, bought;
        stop, bought := BuyStorage(s);
        if stop.Some? {
          return stop.value;
        }
        up := Some(bought);
      }
      out := Complete(s, up.value, guarding);
    }

    /** Steps 1 to 1b: verify, price the duration, weigh the escrow. */
    method Clear(s: Session) returns (stop: Option<Outcome>, guarding: Guarding)
      requires Started(s)
      modifies this`world, staged, entries, reconciler.ledger
      ensures stop.None? ==> Running(s) && Mine(s).pc == AfterGuard(c, s.row) && 1 <= Mine(s).epochs
      ensures stop.None? ==> Mine(s).guarding == guarding && Mine(s).up == s.row.upload && Mine(s).digest == s.row.storeDigest
      ensures stop.None? ==> Matches(s)
      ensures Quiet(s.o) && Matches(s) && Durable(s) && Affords(s, Duration(s)) ==> stop.None? && staged.rows == old(staged.rows)
      ensures Quiet(s.o) && !Matches(s) ==> stop == Some(Refused) && DeadUnspent(s, old(world))
      ensures stop.Some? ==> Halted(s, stop.value)
      ensures stop == Some(Refused) && Matches(s) ==> HasBooked(s.id)
      ensures stop.None? || !Matches(s) ==> reconciler.ledger.entries == old(reconciler.ledger.entries)
      ensures stop.None? && !Ungated(s) ==> guarding.Answered?
      ensures Quiet(s.o) ==> Unspent(s, old(world))
      ensures Quiet(s.o) && Matches(s) && (!Durable(s) || Declined(s, Duration(s))) ==> stop == Some(Refused)
    {
      guarding := NotAsked;
      stop := VerifyBlob(s);
      if stop.Some? { return; }
      var epochs;
      stop, epochs := ResolveEpochs(s);
      if stop.Some? { return; }
      stop, guarding := Gate(s, epochs);
    }

    /** Steps 3 to 6, with the object in hand. */
    method Complete(s: Session, up: UploadResult, guarding: Guarding) returns (out: Outcome)
      requires Running(s) && Mine(s).pc == AfterUpload(c, s.row) && Mine(s).up == Some(up)
      requires Mine(s).guarding == guarding && Mine(s).digest == s.row.storeDigest
      modifies this`world, staged, entries, reconciler.ledger
      ensures Stopped(s, out) && !out.Refused?
      ensures Smooth(s) ==> out == Outcome.Completed
      ensures out == Outcome.Completed && guarding.Answered? ==> HasBooked(s.id)
      ensures Quiet(s.o) && Ledgers(s) && out == Outcome.Completed ==> s.id in entries.rows
    {
      if s.row.storeDigest.None? {
        var stop, digest := RecordOnSui(s);
        if stop.Some? {
          return stop.value;
        }
      }
      var stop := KeepRecord(s);
      if stop.Some? {
        return stop.value;
      }
      out := Return(s, guarding);
    }

    /** The store is to be recorded, and the ledger answers. */
    predicate Ledgers(s: Session) {
      c.ledgerOn && !s.row.ledgered && s.o.ledgerFault.NoFault?
    }

    method KeepRecord(s: Session) returns (stop: Option<Outcome>)
      requires Running(s) && Mine(s).pc == AfterDigest(c, s.row) && Mine(s).up.Some? && Mine(s).digest.Some?
      modifies this`world, staged, entries, reconciler.ledger
      ensures stop.None? ==> Running(s) && Work(Mine(s)) == Work(old(Mine(s)).(pc := AfterReturnCheck(s.row)))
      ensures Quiet(s.o) ==> stop.None?
      ensures stop.Some? ==> Fell(s, stop.value)
      ensures Quiet(s.o) && Ledgers(s) ==> s.id in entries.rows
    {
      if !s.row.ledgered && c.ledgerOn {
        var ok := Arrive(s);
        if !ok { return Some(Threw(false)); }
        RecordInLedger(s);
      }
      stop := Release(s);
    }

    method Release(s: Session) returns (stop: Option<Outcome>)
      requires Running(s) && Mine(s).pc == Free
      modifies this`world, staged, entries, reconciler.ledger
      ensures stop.None? ==> Running(s) && Work(Mine(s)) == Work(old(Mine(s)).(pc := AfterReturnCheck(s.row)))
      ensures Quiet(s.o) ==> stop.None?
      ensures stop.Some? ==> Fell(s, stop.value)
      ensures Quiet(s.o) ==> entries.rows == old(entries.rows)
    {
      var ok := Arrive(s);
      if !ok { return Some(Threw(false)); }
      FreeBytes(s, s.o.clock(Free));
      stop := None;
    }

    method Return(s: Session, guarding: Guarding) returns (out: Outcome)
      requires Running(s) && Mine(s).up.Some? && Mine(s).guarding == guarding
      requires Mine(s).pc == if s.row.returned then Finish else Send
      modifies this`world, staged, entries, reconciler.ledger
      ensures Stopped(s, out) && !out.Refused?
      ensures Quiet(s.o) && (!s.row.returned ==> ProofGoes(s.o)) ==> out == Outcome.Completed
      ensures out == Outcome.Completed && guarding.Answered? ==> HasBooked(s.id)
      ensures Quiet(s.o) ==> entries.rows == old(entries.rows)
    {
      if !s.row.returned {
        var stop := ReturnProof(s);
        if stop.Some? {
          return stop.value;
        }
      }
      var ok := Arrive(s);
      if !ok { return Threw(false); }
      Settle(s, guarding);
      out := Outcome.Completed;
    }

    // ---------- runStore() ----------

    /** A failed attempt's row is dead, or due again with one attempt more and its lease released. */
    predicate Counted(r: Row, s: Session) {
      (r.state == Dead && r.bytes.None?) || (r.attempts == s.row.attempts + 1 && r.claimedBy.None?)
    }

    /** Store with the timeout racing it; a failure is settled exactly once, by the race or by the error. */
    method RunStore(s: Session) returns (out: Outcome)
      requires Valid() && s.k < |At(world, s.id).attempts|
      requires Mine(s) == StartAttempt(proc, s.row, s.commitment)
      modifies this`world, this`origin, this`inProcess, staged, entries, reconciler.ledger
      ensures Over(s, out) && origin == old(world)
      ensures inProcess == old(inProcess) - {s.id}
    {
      origin := world;
      StartIsBound(s);
      inProcess := inProcess + {s.id};
      out := StoreAndSettle(s);
    }

    /** What runStore leaves behind: nothing pending, and every failure counted once. */
    ghost predicate Over(s: Session, out: Outcome)
      reads this`world, this`origin, staged, entries, reconciler.ledger
    {
      && Valid() && Bound(s) && Mine(s).pc == Ended && !Mine(s).settle.Pending?
      && (out.Threw? && s.o.timeoutAt.None? && !s.o.outcomeLost && s.id in staged.rows ==> Counted(staged.rows[s.id], s))
      && (out.Refused? && s.id in staged.rows ==> staged.rows[s.id].state == Dead && staged.rows[s.id].bytes.None?)
      && (out.Completed? && Uncut(At(world, s.id)) ==> s.id in staged.rows && Delivered(staged.rows[s.id]))
    }

    method StoreAndSettle(s: Session) returns (out: Outcome)
      requires Started(s)
      modifies this`world, this`inProcess, staged, entries, reconciler.ledger
      ensures Over(s, out)
      ensures inProcess == old(inProcess) - {s.id}
    {
      out := StoreThenRelease(s);
      CatchFailure(s, out);
    }

    /** runStore after the work: nothing to do, or the catch branch. */
    method CatchFailure(s: Session, out: Outcome)
      requires Stopped(s, out)
      modifies this`world, staged
      ensures Over(s, out)
    {
      if out.Threw? {
        SettleThrown(s, out.post);
      } else {
        StoppedIsOver(s, out);
      }
    }

    lemma StoppedIsOver(s: Session, out: Outcome)
      requires !out.Threw? && Stopped(s, out)
      ensures Over(s, out)
    {
    }

    /** The slot is held until the work itself ends, however long ago the timeout fired. */
    method StoreThenRelease(s: Session) returns (out: Outcome)
      requires Started(s)
      modifies this`world, this`inProcess, staged, entries, reconciler.ledger
      ensures Stopped(s, out)
      ensures inProcess == old(inProcess) - {s.id}
    {
      out := Store(s);
      inProcess := inProcess - {s.id};
    }

    /** The catch branch, unless the timeout already took it. */
    method SettleThrown(s: Session, post: bool)
      requires Thrown(s, post)
      modifies this`world, staged
      ensures Over(s, Threw(post))
    {
      if At(world, s.id).attempts[s.k].settle.Pending? {
        FailedIsCounted(staged.rows, s, post, s.o.clock(Ended));
        OnFailure(s, post, s.o.clock(Ended));
      }
    }

    lemma FailedIsCounted(t: Table, s: Session, post: bool, now: int)
      ensures s.id in AfterFailure(t, s, post, now) ==> Counted(AfterFailure(t, s, post, now)[s.id], s)
    {
    }

    lemma StartIsBound(s: Session)
      requires s.k < |At(world, s.id).attempts| && origin == world
      ensures OwnKept(origin, world, proc, s.id, s.k)
    {
      forall x ensures KeptAt(At(origin, x), At(world, x), proc, Spared(x, s.id, s.k)) {
      }
    }

    // ---------- the claim tick ----------

    /** The session's attempt has not moved, and it is the only working one this process has for the intent. */
    ghost predicate Waiting(w: World, t: Session) {
      && t.k < |At(w, t.id).attempts|
      && At(w, t.id).attempts[t.k] == StartAttempt(proc, t.row, t.commitment)
      && forall n :: 0 <= n < |At(w, t.id).attempts| && n != t.k && At(w, t.id).attempts[n].proc == proc
           ==> !Working(At(w, t.id).attempts[n])
    }

    /** The in-process set covers every attempt of this process that still works, but for those about to start. */
    ghost predicate Tracked(w: World, ready: seq<Session>)
      reads this`inProcess
    {
      forall x :: InProcess(At(w, x), proc) ==> x in inProcess || exists n :: 0 <= n < |ready| && ready[n].id == x
    }

    ghost predicate Lined(w: World, ready: seq<Session>) {
      && (forall n :: 0 <= n < |ready| ==> Waiting(w, ready[n]))
      && (forall m, n :: 0 <= m < n < |ready| ==> ready[m].id != ready[n].id)
    }

    lemma OneLess(w: World, v: World, ready: seq<Session>)
      requires ready != [] && Lined(w, ready) && Tracked(w, ready)
      requires OwnKept(w, v, proc, ready[0].id, ready[0].k)
      requires ready[0].k < |At(v, ready[0].id).attempts| && !Working(At(v, ready[0].id).attempts[ready[0].k])
      ensures Lined(v, ready[1..]) && Tracked(v, ready[1..])
    {
      var s := ready[0];
      forall n | 0 <= n < |ready[1..]| ensures Waiting(v, ready[1..][n]) {
        var t := ready[n + 1];
        assert ready[1..][n] == t && t.id != s.id;
        assert Waiting(w, t);
        KeptFor(w, v, proc, s.id, s.k, t.id);
      }
      forall x | InProcess(At(v, x), proc) ensures x in inProcess || exists n :: 0 <= n < |ready[1..]| && ready[1..][n].id == x {
        var k := if x == s.id then s.k else -1;
        KeptFor(w, v, proc, s.id, s.k, x);
        var n :| 0 <= n < |At(v, x).attempts| && Working(At(v, x).attempts[n]) && At(v, x).attempts[n].proc == proc;
        assert n != k && At(v, x).attempts[n] == At(w, x).attempts[n];
        assert InProcess(At(w, x), proc);
        assert Waiting(w, s);
        assert x != s.id;
        if x !in inProcess {
          var m :| 0 <= m < |ready| && ready[m].id == x;
          assert ready[1..][m - 1].id == x;
        }
      }
    }

    /** `id` was claimed, and its attempt begun if it joins the line. */
    lemma LineGrows(w: World, v: World, id: string, ready: seq<Session>, next: Option<Session>, row: Row, start: Option<IntentCommitment>)
      requires Lined(w, ready) && Tracked(w, ready)
      requires forall n :: 0 <= n < |ready| ==> ready[n].id != id
      requires forall x :: x != id ==> At(v, x) == At(w, x)
      requires At(v, id).attempts == At(w, id).attempts + Begun(proc, row, start)
      requires next.Some? <==> start.Some?
      requires next.Some? ==> !InProcess(At(w, id), proc) && next.value.id == id && next.value.row == row
      requires next.Some? ==> next.value.k == |At(w, id).attempts| && next.value.commitment == start.value
      ensures Lined(v, ready + Listed(next)) && Tracked(v, ready + Listed(next))
    {
      var more := ready + Listed(next);
      forall n | 0 <= n < |more| ensures Waiting(v, more[n]) {
        if n < |ready| {
          assert more[n] == ready[n] && Waiting(w, ready[n]);
        }
      }
      forall x | InProcess(At(v, x), proc) ensures x in inProcess || exists n :: 0 <= n < |more| && more[n].id == x {
        if x == id && start.Some? {
          assert more[|ready|].id == x;
        } else if x !in inProcess {
          assert InProcess(At(w, x), proc);
          var n :| 0 <= n < |ready| && ready[n].id == x;
          assert more[n].id == x;
        }
      }
    }

    /** One claimed row: start it if it is ready, else leave it leased for a later tick. */
    method StartOne(id: string, ready: seq<Session>, commitment: Option<IntentCommitment>, o: Oracle, now: int)
      returns (next: Option<Session>)
      requires Sane() && Lined(world, ready) && Tracked(world, ready)
      requires forall n :: 0 <= n < |ready| ==> ready[n].id != id
      requires id in TableOf(world) && Claimable(TableOf(world)[id], proc, now)
      requires id in staged.rows && staged.rows[id] == Claim(TableOf(world)[id], proc, now, staged.leaseMs)
      modifies this`world
      ensures Sane() && Lined(world, ready + Listed(next)) && Tracked(world, ready + Listed(next))
      ensures TableOf(world) == TableOf(old(world))[id := staged.rows[id]] && LedgerOf(world) == LedgerOf(old(world))
      ensures next.Some? <==> MayStart(id, |ready|, commitment, now)
      ensures next.Some? ==> next.value == Session(id, |At(old(world), id).attempts|, staged.rows[id], commitment.value, o)
    {
      next := None;
      var row := staged.rows[id];
      if |ready| < storeConcurrency && id !in inProcess && row.received && (row.bytes.Some? || row.upload.Some?) {
        if !(row.deadline.Some? && now >= row.deadline.value) && HasSender(commitment) {
          next := Some(Session(id, |At(world, id).attempts|, row, commitment.value, o));
        }
      }
      world := ClaimOne(id, ready, next, if next.Some? then commitment else None, now);
    }

    method ClaimOne(id: string, ready: seq<Session>, ghost next: Option<Session>, start: Option<IntentCommitment>, now: int)
      returns (v: World)
      requires Sane() && Lined(world, ready) && Tracked(world, ready)
      requires forall n :: 0 <= n < |ready| ==> ready[n].id != id
      requires id in TableOf(world) && Claimable(TableOf(world)[id], proc, now)
      requires next.Some? <==> start.Some?
      requires var row := Claim(TableOf(world)[id], proc, now, staged.leaseMs);
               next.Some? ==> next.value.id == id && next.value.k == |At(world, id).attempts| && next.value.row == row
                              && next.value.commitment == start.value && id !in inProcess && Startable(TableOf(world)[id], now)
      ensures EachReachable(c, v) && Books(v, proc, reconciler.ledger.entries)
      ensures Lined(v, ready + Listed(next)) && Tracked(v, ready + Listed(next))
      ensures TableOf(v) == TableOf(world)[id := Claim(TableOf(world)[id], proc, now, staged.leaseMs)] && LedgerOf(v) == LedgerOf(world)
    {
      NotTracked(id, ready);
      ClaimStep(c, world, id, proc, staged.leaseMs, start, now, reconciler.ledger.entries);
      v := Made(c, world, Fleet.Move(id, ClaimRow(proc, staged.leaseMs, start, now)));
      LineGrows(world, v, id, ready, next, Claim(TableOf(world)[id], proc, now, staged.leaseMs), start);
    }

    /** The tick starts the row: a slot is free, no attempt is in process, and deadline and sender allow it. */
    predicate MayStart(id: string, taken: nat, commitment: Option<IntentCommitment>, now: int)
      reads this`inProcess, staged
      requires id in staged.rows
    {
      taken < storeConcurrency && id !in inProcess && Startable(staged.rows[id], now) && HasSender(commitment)
    }

    lemma NotTracked(id: string, ready: seq<Session>)
      requires Tracked(world, ready) && forall n :: 0 <= n < |ready| ==> ready[n].id != id
      ensures id !in inProcess ==> !InProcess(At(world, id), proc)
    {
    }

    lemma LeasedOneMore(t: Table, claimed: seq<string>, n: nat, now: int)
      requires n < |claimed| && claimed[n] in t
      ensures Leased(t, claimed[..n + 1], proc, now, staged.leaseMs)
           == Leased(t, claimed[..n], proc, now, staged.leaseMs)[claimed[n] := Claim(t[claimed[n]], proc, now, staged.leaseMs)]
    {
      assert claimed[..n + 1] == claimed[..n] + [claimed[n]];
    }

    ghost predicate Claimed(t: Table, claimed: seq<string>, now: int) {
      && (forall n :: 0 <= n < |claimed| ==> claimed[n] in t && Claimable(t[claimed[n]], proc, now))
      && (forall m, n :: 0 <= m < n < |claimed| ==> claimed[m] != claimed[n])
    }

    /** The rows to start: claimed, not in process, before their deadline, and no more than there are slots. */
    predicate ChosenFrom(busy: set<string>, t: Table, ready: seq<Session>, ids: seq<string>,
                         commitments: string -> Option<IntentCommitment>, now: int) {
      && |ready| <= storeConcurrency
      && (forall n :: 0 <= n < |ready| ==>
            ready[n].id in ids && ready[n].id !in busy && ready[n].id in t
            && ready[n].row == t[ready[n].id] && Startable(ready[n].row, now))
      // nothing startable is passed over while a slot is free
      && (|ready| < storeConcurrency ==>
            forall m :: 0 <= m < |ids| && ids[m] in t && ids[m] !in busy && HasSender(commitments(ids[m])) ==>
              (Startable(t[ids[m]], now) ==> Joined(ready, ids[m])))
    }

    ghost predicate Chosen(ready: seq<Session>, ids: seq<string>, commitments: string -> Option<IntentCommitment>, now: int)
      reads this`inProcess, staged
    {
      ChosenFrom(inProcess, staged.rows, ready, ids, commitments, now)
    }

    predicate Joined(ready: seq<Session>, id: string) {
      exists n :: 0 <= n < |ready| && ready[n].id == id
    }

    method Select(claimed: seq<string>, now: int, commitments: string -> Option<IntentCommitment>, oracles: string -> Oracle)
      returns (ready: seq<Session>)
      requires Sane() && Tracked(world, []) && entries.rows == LedgerOf(world)
      requires Claimed(TableOf(world), claimed, now)
      requires staged.rows == Leased(TableOf(world), claimed, proc, now, staged.leaseMs)
      modifies this`world
      ensures Valid() && Lined(world, ready) && Tracked(world, ready)
      ensures Chosen(ready, claimed, commitments, now)
    {
      ready := [];
      ghost var t := TableOf(world);
      assert claimed[..0] == [];
      assert Leased(t, [], proc, now, staged.leaseMs) == t;
      for n := 0 to |claimed|
        invariant Picked(t, claimed, n, ready, commitments, now)
      {
        ready := SelectNext(t, claimed, n, ready, commitments, oracles, now);
      }
      assert claimed[..|claimed|] == claimed;
    }

    /** The first n claimed rows are in the world, and the ready ones among them in line. */
    ghost predicate Picked(t: Table, claimed: seq<string>, n: nat, ready: seq<Session>,
                           commitments: string -> Option<IntentCommitment>, now: int)
      reads this`world, this`inProcess, staged, entries, reconciler.ledger
    {
      && n <= |claimed|
      && Sane() && entries.rows == LedgerOf(world)
      && Lined(world, ready) && Tracked(world, ready)
      && TableOf(world) == Leased(t, claimed[..n], proc, now, staged.leaseMs)
      && Chosen(ready, claimed[..n], commitments, now)
    }

    method SelectNext(ghost t: Table, claimed: seq<string>, n: nat, ready: seq<Session>,
                      commitments: string -> Option<IntentCommitment>, oracles: string -> Oracle, now: int) returns (more: seq<Session>)
      requires n < |claimed| && Claimed(t, claimed, now) && staged.rows == Leased(t, claimed, proc, now, staged.leaseMs)
      requires Picked(t, claimed, n, ready, commitments, now)
      modifies this`world
      ensures Picked(t, claimed, n + 1, more, commitments, now)
    {
      var id := claimed[n];
      NotYetPicked(t, claimed, n, ready, commitments, now);
      LeasedOneMore(t, claimed, n, now);
      var next := StartOne(id, ready, commitments(id), oracles(id), now);
      ChosenGrows(ready, claimed, n, next, commitments, now);
      more := ready + Listed(next);
    }

    lemma NotYetPicked(t: Table, claimed: seq<string>, n: nat, ready: seq<Session>,
                       commitments: string -> Option<IntentCommitment>, now: int)
      requires n < |claimed| && Claimed(t, claimed, now) && staged.rows == Leased(t, claimed, proc, now, staged.leaseMs)
      requires Chosen(ready, claimed[..n], commitments, now)
      ensures forall m :: 0 <= m < |ready| ==> ready[m].id != claimed[n]
      ensures claimed[n] in staged.rows
      ensures var u := Leased(t, claimed[..n], proc, now, staged.leaseMs);
              claimed[n] in u && u[claimed[n]] == t[claimed[n]] && Claimable(t[claimed[n]], proc, now)
      ensures staged.rows[claimed[n]] == Claim(t[claimed[n]], proc, now, staged.leaseMs)
    {
      assert claimed[n] !in claimed[..n];
      forall m | 0 <= m < |ready| ensures ready[m].id != claimed[n] {
        assert ready[m].id in claimed[..n];
      }
    }

    lemma ChosenGrows(ready: seq<Session>, claimed: seq<string>, n: nat, next: Option<Session>,
                      commitments: string -> Option<IntentCommitment>, now: int)
      requires n < |claimed| && Chosen(ready, claimed[..n], commitments, now) && claimed[n] in staged.rows
      requires next.Some? <==> MayStart(claimed[n], |ready|, commitments(claimed[n]), now)
      requires next.Some? ==> next.value.id == claimed[n] && next.value.row == staged.rows[claimed[n]]
      ensures Chosen(ready + Listed(next), claimed[..n + 1], commitments, now)
    {
      var more, ids := ready + Listed(next), claimed[..n + 1];
      assert ids == claimed[..n] + [claimed[n]];
      if |more| < storeConcurrency {
        forall m | 0 <= m < |ids| && ids[m] in staged.rows && ids[m] !in inProcess && Startable(staged.rows[ids[m]], now)
                   && HasSender(commitments(ids[m]))
          ensures Joined(more, ids[m])
        {
          if m == n {
            assert more[|ready|].id == ids[m];
          } else {
            assert ids[m] == claimed[..n][m];
            var k :| 0 <= k < |ready| && ready[k].id == ids[m];
            assert more[k].id == ids[m];
          }
        }
      }
    }

    /** Claimed, started, and none of them in process yet. */
    ghost predicate InLine(left: seq<Session>)
      reads this`world, this`origin, this`inProcess, staged, entries, reconciler.ledger
    {
      Valid() && Lined(world, left) && Tracked(world, left) && forall n :: 0 <= n < |left| ==> left[n].id !in inProcess
    }

    /** The session's attempt ran to its end and its outcome is settled. */
    ghost predicate Finished(w: World, t: Session) {
      && t.k < |At(w, t.id).attempts|
      && var a := At(w, t.id).attempts[t.k];
         a.proc == proc && a.row == t.row && a.pc == Ended && !a.settle.Pending?
    }

    /** Those that were run are done. */
    ghost predicate AllFinished(w: World, gone: seq<Session>) {
      forall n :: 0 <= n < |gone| ==> Finished(w, gone[n])
    }

    method RunAll(ready: seq<Session>)
      requires InLine(ready)
      modifies this`world, this`origin, this`inProcess, staged, entries, reconciler.ledger
      ensures Valid() && Tracked(world, []) && inProcess == old(inProcess)
      ensures AllFinished(world, ready)
    {
      assert ready[0..] == ready;
      for n := 0 to |ready|
        invariant InLine(ready[n..]) && inProcess == old(inProcess)
        invariant AllFinished(world, ready[..n])
      {
        RunNext(ready, n);
      }
      assert ready[..|ready|] == ready;
      assert ready[|ready|..] == [];
    }

    method RunNext(ready: seq<Session>, n: nat)
      requires n < |ready| && InLine(ready[n..]) && AllFinished(world, ready[..n])
      requires forall i, j :: 0 <= i < j < |ready| ==> ready[i].id != ready[j].id
      modifies this`world, this`origin, this`inProcess, staged, entries, reconciler.ledger
      ensures InLine(ready[n + 1..]) && inProcess == old(inProcess)
      ensures AllFinished(world, ready[..n + 1])
    {
      ghost var was := world;
      ghost var left := ready[n..];
      assert Waiting(world, left[0]);
      RunSlot(ready[n]);
      OneLess(was, world, left);
      assert left[1..] == ready[n + 1..];
      StillFinished(was, ready, n);
    }

    method RunSlot(s: Session)
      requires Valid() && Waiting(world, s)
      modifies this`world, this`origin, this`inProcess, staged, entries, reconciler.ledger
      ensures Valid() && Finished(world, s) && OwnKept(old(world), world, proc, s.id, s.k)
      ensures inProcess == old(inProcess) - {s.id}
    {
      var out := RunStore(s);
    }

    lemma StillFinished(was: World, ready: seq<Session>, n: nat)
      requires n < |ready| && AllFinished(was, ready[..n]) && Finished(world, ready[n])
      requires OwnKept(was, world, proc, ready[n].id, ready[n].k)
      requires forall i, j :: 0 <= i < j < |ready| ==> ready[i].id != ready[j].id
      ensures AllFinished(world, ready[..n + 1])
    {
      forall m | 0 <= m < n ensures Finished(world, ready[m]) {
        assert Finished(was, ready[..n][m]);
        KeptFor(was, world, proc, ready[n].id, ready[n].k, ready[m].id);
      }
    }

    predicate TickRunning(now: int)
      reads this`tickStartedAt
    {
      tickStartedAt.Some? && now - tickStartedAt.value < tickWatchdogMs
    }

    /** Drain the due rows under a lease, start the ready ones, and see each through. */
    method Tick(now: int, commitments: string -> Option<IntentCommitment>, oracles: string -> Oracle)
      returns (claimed: seq<string>, started: seq<Session>)
      requires Valid() && Tracked(world, [])
      modifies this`world, this`origin, this`inProcess, this`tickStartedAt, staged, entries, reconciler.ledger
      ensures Valid() && Tracked(world, []) && inProcess == old(inProcess)
      ensures old(TickRunning(now)) ==> tickStartedAt == old(tickStartedAt) && world == old(world) && started == []
      ensures !old(TickRunning(now)) ==> tickStartedAt.None?
      ensures !old(TickRunning(now)) ==> OldestFirst(old(staged.rows), Due(old(staged.rows), proc, now), batchSize, claimed)
      ensures !old(TickRunning(now)) ==>
        ChosenFrom(old(inProcess), Leased(old(staged.rows), claimed, proc, now, staged.leaseMs), started, claimed, commitments, now)
      ensures AllFinished(world, started)
    {
      if tickStartedAt.Some? && now - tickStartedAt.value < tickWatchdogMs {
        return [], [];
      }
      tickStartedAt := Some(now);
      claimed := staged.DrainDue(now, batchSize);
      started := Select(claimed, now, commitments, oracles);
      RunAll(started);
      if tickStartedAt == Some(now) {
        tickStartedAt := None;
      }
    }

    // ---------- IntentReceived and byte recovery ----------

    method AdvanceOutside(id: string, o: Outside, now: int)
      requires Sane() && ExternalReady(At(world, id), o, now) && (o.Received? || o.BackOff? || o.Ingest?)
      requires o.Ingest? ==> Ingestible(c, id, o.blob)
      modifies this`world
      ensures Sane() && TableOf(world) == Put(TableOf(old(world)), id, ApplyExternal(old(At(world, id)), o, now).row)
      ensures LedgerOf(world) == LedgerOf(old(world)) && old(At(world, id).row) == Get(TableOf(old(world)), id)
      ensures forall ready: seq<Session> :: Tracked(old(world), ready) ==> Tracked(world, ready)
    {
      var m := Fleet.Move(id, External(o, now));
      ForeignStep(c, world, m, proc, reconciler.ledger.entries, id, -1);
      MoveIsLocal(c, world, m);
      LedgerIsLocal(c, world, m);
      PutSameEntry(LedgerOf(world), id);
      SameWorkers(world, Made(c, world, m), id);
      world := Made(c, world, m);
    }

    lemma SameWorkers(w: World, v: World, id: string)
      requires At(v, id).attempts == At(w, id).attempts && forall x :: x != id ==> At(v, x) == At(w, x)
      ensures forall ready: seq<Session> :: Tracked(w, ready) ==> Tracked(v, ready)
    {
      forall x ensures InProcess(At(v, x), proc) ==> InProcess(At(w, x), proc) {
      }
    }

    /** The Sui event, in either order with the bytes; a settled row ignores it. */
    method OnReceived(id: string, details: ReceivedDetails, now: int) returns (recorded: bool)
      requires Valid() && Tracked(world, [])
      modifies this`world, staged
      ensures Valid() && Tracked(world, [])
      ensures recorded <==> !(id in old(staged.rows) && old(staged.rows)[id].state != Active)
      ensures staged.rows == Put(old(staged.rows), id, Receive(Get(old(staged.rows), id), details, now))
      ensures recorded ==> id in staged.rows && staged.rows[id].received && staged.rows[id].deadline == Some(details.deadline)
    {
      recorded := staged.MarkReceived(id, details, now);
      AdvanceOutside(id, Received(details), now);
    }

    /** Rows received but never given their bytes: back off first, then fetch and ingest under the byte budget. */
    method RecoverMissingBytes(now: int, graceMs: int, backoffMs: int, cap: nat, fetched: Fetched) returns (candidates: seq<string>)
      requires Valid() && Tracked(world, [])
      modifies this`world, this`recovering, staged
      ensures Valid() && Tracked(world, []) && recovering == old(recovering)
      ensures old(recovering) ==> world == old(world)
      ensures !old(recovering) ==> Swept(c, old(staged.rows), staged.rows, candidates, batchSize, now, graceMs, now + backoffMs, cap, fetched)
    {
      candidates := [];
      if recovering {
        return;
      }
      recovering := true;
      ghost var t := staged.rows;
      candidates := Sweep(now, graceMs, now + backoffMs, cap, fetched);
      ghost var u := staged.rows;
      recovering := false;
      assert t == old(staged.rows) && u == staged.rows && Swept(c, t, u, candidates, batchSize, now, graceMs, now + backoffMs, cap, fetched);
    }

    method Sweep(now: int, graceMs: int, nextAt: int, cap: nat, fetched: Fetched) returns (candidates: seq<string>)
      requires Valid() && Tracked(world, [])
      modifies this`world, staged
      ensures Valid() && Tracked(world, [])
      ensures Swept(c, old(staged.rows), staged.rows, candidates, batchSize, now, graceMs, nextAt, cap, fetched)
    {
      candidates := staged.ClaimForByteRecovery(now, graceMs, batchSize);
      SweepSettles(c, staged.rows, candidates, now, nextAt, cap, fetched);
      RecoverEach(candidates, now, nextAt, cap, fetched);
    }

    method RecoverEach(candidates: seq<string>, now: int, nextAt: int, cap: nat, fetched: Fetched)
      requires Valid() && Tracked(world, [])
      modifies this`world, staged
      ensures Valid() && Tracked(world, [])
      ensures staged.rows == Recovered(c, old(staged.rows), candidates, |candidates|, now, nextAt, cap, fetched)
    {
      for n := 0 to |candidates|
        invariant Valid() && Tracked(world, [])
        invariant staged.rows == Recovered(c, old(staged.rows), candidates, n, now, nextAt, cap, fetched)
      {
        RecoverOne(candidates[n], now, nextAt, cap, fetched(candidates[n]));
      }
    }

    method RecoverOne(id: string, now: int, nextAt: int, cap: nat, blob: Option<StagedBytes>)
      requires Valid() && Tracked(world, [])
      modifies this`world, staged
      ensures Valid() && Tracked(world, [])
      ensures staged.rows == RecoveredOne(c, old(staged.rows), id, now, nextAt, cap, blob)
    {
      DelayRecovery(id, nextAt, now);
      if blob.Some? && Ingestible(c, id, blob.value) {
        IngestBytes(id, blob.value, cap, now);
      }
    }

    method DelayRecovery(id: string, nextAt: int, now: int)
      requires Valid() && Tracked(world, [])
      modifies this`world, staged
      ensures Valid() && Tracked(world, [])
      ensures staged.rows == Delayed(old(staged.rows), id, nextAt, now)
    {
      staged.RescheduleByteRecovery(id, nextAt, now);
      AdvanceOutside(id, BackOff(nextAt), now);
    }

    method IngestBytes(id: string, blob: StagedBytes, cap: nat, now: int)
      requires Valid() && Tracked(world, []) && Ingestible(c, id, blob)
      modifies this`world, staged
      ensures Valid() && Tracked(world, [])
      ensures staged.rows == Admitted(old(staged.rows), id, blob, Some(cap), now)
    {
      WholeOutcome(staged.rows, id, blob, cap, now);
      var outcome := staged.UpsertBytes(id, blob, Some(cap), None, now);
      if outcome.Accepted? {
        AdvanceOutside(id, Ingest(blob), now);
      }
    }

    // ---------- never lose money ----------

    /** Whatever ran, the summary counts no completed intent at a loss. */
    method Summary() returns (s: PnlSummary)
      requires Valid() && 0.0 <= c.minMargin && GuardsWithBreakEven(c)
      ensures s.negativeCount == 0 && s.count == |reconciler.ledger.entries|
      ensures s.totalNetUsd == NetSum(reconciler.ledger.entries) == s.totalCollectedUsd - s.totalSpentUsd
    {
      BooksAreProfitable(c, world, proc, reconciler.ledger.entries);
      s := reconciler.ledger.Summary();
    }
  }
}
