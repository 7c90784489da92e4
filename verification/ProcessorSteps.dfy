/**
  The protocol step behind each statement of one process, on values: the world before, the world after, and what
  became of the attempt, the table and the ledger. The process itself never looks inside a step.
 */
module ProcessorSteps {
  import opened Wrappers
  import opened StagedTable
  import opened StagedIntentStores
  import opened OpsLedger
  import opened OpsLedgerService
  import opened IntentProtocol
  import opened IntentRuns
  import opened Fleet
  import opened ProcessorWorld
  import opened Settlement
  import Pricing

  /** Whose attempt it is, what it may rely on having stayed since it started, and what the process has booked. */
  datatype Frame = Frame(origin: World, proc: string, entries: seq<PnlEntry>)

  function Here(w: World, id: string, k: nat): Attempt
    requires k < |At(w, id).attempts|
  {
    At(w, id).attempts[k]
  }

  ghost predicate Held(c: Config, w: World, id: string, k: nat, g: Frame) {
    && 1 <= c.maxStoreAttempts && 1 <= c.returnMaxAttempts
    && EachReachable(c, w) && Books(w, g.proc, g.entries)
    && k < |At(w, id).attempts| && Here(w, id, k).proc == g.proc
    && OwnKept(g.origin, w, g.proc, id, k)
  }

  /** The attempt is now `a`, and everything else the process relies on is as it was. */
  ghost predicate Became(c: Config, w: World, v: World, id: string, k: nat, g: Frame, a: Attempt) {
    && Held(c, v, id, k, g) && Here(v, id, k) == a
    && At(v, id).log.cut == At(w, id).log.cut
  }

  ghost predicate SameTables(w: World, v: World) {
    TableOf(v) == TableOf(w) && LedgerOf(v) == LedgerOf(w)
  }

  /** Any step of the attempt that books nothing. */
  method Take(c: Config, w: World, id: string, k: nat, st: Step, ghost g: Frame) returns (v: World)
    requires Held(c, w, id, k, g) && Enabled(c, At(w, id), st) && AttemptOf(st) == Some(k)
    requires Apply(c, At(w, id), st).pnl == At(w, id).pnl
    ensures Held(c, v, id, k, g) && At(v, id) == Apply(c, At(w, id), st)
    ensures TableOf(v) == Put(TableOf(w), id, At(v, id).row) && LedgerOf(v) == PutEntry(LedgerOf(w), id, At(v, id).entry)
    ensures At(v, id).row == At(w, id).row ==> TableOf(v) == TableOf(w)
    ensures At(v, id).entry == At(w, id).entry ==> LedgerOf(v) == LedgerOf(w)
    ensures At(w, id).row == Get(TableOf(w), id) && At(w, id).id == id
    ensures At(w, id).entry == if id in LedgerOf(w) then Some(LedgerOf(w)[id]) else None
  {
    v := Made(c, w, Fleet.Move(id, st));
    OwnStep(c, w, id, k, st, g.proc);
    OwnKeptTrans(g.origin, w, v, g.proc, id, k);
    BooksKept(w, v, g.proc, g.entries);
    StepMovesOnly(c, At(w, id), st, k);
    PutSame(TableOf(w), id);
    PutSameEntry(LedgerOf(w), id);
  }

  /** A step that books `e`. */
  method TakeBooked(c: Config, w: World, id: string, k: nat, st: Step, ghost e: PnlEntry, ghost g: Frame) returns (v: World)
    requires Held(c, w, id, k, g) && Enabled(c, At(w, id), st) && AttemptOf(st) == Some(k)
    requires e.intentId == id && Apply(c, At(w, id), st).pnl == Booked(At(w, id), g.proc, e).pnl
    requires Apply(c, At(w, id), st).entry == At(w, id).entry
    ensures Held(c, v, id, k, g.(entries := Book(g.entries, e))) && At(v, id) == Apply(c, At(w, id), st)
    ensures TableOf(v) == Put(TableOf(w), id, At(v, id).row) && LedgerOf(v) == LedgerOf(w)
    ensures At(v, id).row == At(w, id).row ==> TableOf(v) == TableOf(w)
    ensures At(w, id).row == Get(TableOf(w), id)
  {
    v := Made(c, w, Fleet.Move(id, st));
    OwnStep(c, w, id, k, st, g.proc);
    OwnKeptTrans(g.origin, w, v, g.proc, id, k);
    BooksGrow(w, v, g.proc, g.entries, e);
    StepMovesOnly(c, At(w, id), st, k);
    PutSame(TableOf(w), id);
    PutSameEntry(LedgerOf(w), id);
  }

  /** Nothing is left to do for the row. */
  predicate Delivered(r: Row) {
    r.state == Done && r.upload.Some? && r.storeDigest.Some? && r.returned && r.bytes.None?
  }

  // ---------- control ----------

  method TakeThrow(c: Config, w: World, id: string, k: nat, now: int, ghost g: Frame) returns (v: World)
    requires Held(c, w, id, k, g) && ControlReady(Here(w, id, k), Throw)
    ensures Became(c, w, v, id, k, g, Failed(Here(w, id, k), false)) && SameTables(w, v)
    ensures At(v, id).log.uploads == At(w, id).log.uploads
  {
    v := Take(c, w, id, k, Controlling(k, Throw, now), g);
  }

  method TakeTimeout(c: Config, w: World, id: string, k: nat, now: int, ghost g: Frame) returns (v: World)
    requires Held(c, w, id, k, g) && ControlReady(Here(w, id, k), Timeout)
    ensures Became(c, w, v, id, k, g, Here(w, id, k).(settle := Pending(false))) && SameTables(w, v)
  {
    v := Take(c, w, id, k, Controlling(k, Timeout, now), g);
  }

  method TakeSettleLost(c: Config, w: World, id: string, k: nat, now: int, ghost g: Frame) returns (v: World)
    requires Held(c, w, id, k, g) && Here(w, id, k).settle.Pending?
    ensures Became(c, w, v, id, k, g, Here(w, id, k).(settle := Settled)) && SameTables(w, v)
  {
    v := Take(c, w, id, k, Controlling(k, SettleLost, now), g);
  }

  /** The row after a failed attempt: dead at the limit, else due again at `nextAt` with its lease released. */
  function FailedRow(r: Row, attempts: int, limit: int, nextAt: int, error: string, now: int): Row {
    if attempts >= limit then StagedTable.MarkDead(r, error, now)
    else StagedTable.Reschedule(r, attempts, nextAt, error, now)
  }

  /** The table once the outcome is written: one row failed, every other row untouched. */
  function FailedTable(t: Table, id: string, attempts: int, limit: int, nextAt: int, error: string, now: int): Table {
    if id in t then t[id := FailedRow(t[id], attempts, limit, nextAt, error, now)] else t
  }

  method TakeSettle(c: Config, w: World, id: string, k: nat, nextAt: int, error: string, now: int, ghost g: Frame) returns (v: World)
    requires Held(c, w, id, k, g) && Here(w, id, k).settle.Pending?
    ensures Became(c, w, v, id, k, g, Here(w, id, k).(settle := Settled)) && LedgerOf(v) == LedgerOf(w)
    ensures TableOf(v) == FailedTable(TableOf(w), id, Here(w, id, k).row.attempts + 1, Limit(c, Here(w, id, k).settle.post),
                                      nextAt, error, now)
  {
    SettleWritesFailedRow(c, At(w, id), k, nextAt, error, now);
    v := Take(c, w, id, k, Controlling(k, SettleRow(nextAt, error), now), g);
  }

  lemma SettleWritesFailedRow(c: Config, i: Intent, k: nat, nextAt: int, error: string, now: int)
    requires k < |i.attempts| && i.attempts[k].settle.Pending?
    ensures var j := Apply(c, i, Controlling(k, SettleRow(nextAt, error), now));
            var a := i.attempts[k];
            && j.row == (if i.row.Some? then Some(FailedRow(i.row.value, a.row.attempts + 1, Limit(c, a.settle.post), nextAt, error, now)) else None)
            && j.entry == i.entry && j.pnl == i.pnl && j.attempts == i.attempts[k := a.(settle := Settled)] && j.log.cut == i.log.cut
  {
  }

  // ---------- checks ----------

  method TakeCheck(c: Config, w: World, id: string, k: nat, p: Check, now: int, ghost g: Frame) returns (v: World)
    requires Held(c, w, id, k, g) && CheckReady(Here(w, id, k), p) && CheckOutcome(c, Here(w, id, k), p).Go?
    requires Truthful(c, At(w, id), Checking(k, p, now))
    ensures Became(c, w, v, id, k, g, CheckOutcome(c, Here(w, id, k), p).a) && SameTables(w, v)
    ensures At(v, id).log.uploads == At(w, id).log.uploads
  {
    v := Take(c, w, id, k, Checking(k, p, now), g);
  }

  method TakeStop(c: Config, w: World, id: string, k: nat, p: Check, error: string, now: int, ghost g: Frame) returns (v: World)
    requires Held(c, w, id, k, g) && CheckReady(Here(w, id, k), p) && CheckOutcome(c, Here(w, id, k), p) == Stop(error, false)
    requires Truthful(c, At(w, id), Checking(k, p, now))
    ensures Became(c, w, v, id, k, g, Here(w, id, k).(pc := Ended)) && LedgerOf(v) == LedgerOf(w)
    ensures TableOf(v) == Updated(TableOf(w), id, r => StagedTable.MarkDead(r, error, now))
    ensures At(v, id).log.uploads == At(w, id).log.uploads
  {
    v := Take(c, w, id, k, Checking(k, p, now), g);
  }

  method TakeSkip(c: Config, w: World, id: string, k: nat, p: Check, error: string, now: int, ghost g: Frame) returns (v: World)
    requires Held(c, w, id, k, g) && CheckReady(Here(w, id, k), p) && CheckOutcome(c, Here(w, id, k), p) == Stop(error, true)
    requires Truthful(c, At(w, id), Checking(k, p, now))
    ensures Became(c, w, v, id, k, g.(entries := Book(g.entries, SkipEntry(id, now))), Here(w, id, k).(pc := Ended))
    ensures TableOf(v) == Updated(TableOf(w), id, r => StagedTable.MarkDead(r, error, now)) && LedgerOf(v) == LedgerOf(w)
    ensures At(v, id).log.uploads == At(w, id).log.uploads
  {
    v := TakeBooked(c, w, id, k, Checking(k, p, now), SkipEntry(id, now), g);
  }

  // ---------- the upload ----------

  method TakeFetch(c: Config, w: World, id: string, k: nat, now: int, ghost g: Frame) returns (v: World)
    requires Held(c, w, id, k, g) && Here(w, id, k).pc == Fetch
    ensures SameTables(w, v)
    ensures Became(c, w, v, id, k, g,
              if id in TableOf(w) && TableOf(w)[id].bytes.Some?
              then Here(w, id, k).(pc := Uploading(TableOf(w)[id].bytes.value))
              else Failed(Here(w, id, k), false))
  {
    v := Take(c, w, id, k, Buying(k, DoFetch, now), g);
  }

  method TakeUpload(c: Config, w: World, id: string, k: nat, up: UploadResult, now: int, ghost g: Frame) returns (v: World)
    requires Held(c, w, id, k, g) && Here(w, id, k).pc.Uploading? && 1 <= Here(w, id, k).epochs
    ensures Became(c, w, v, id, k, g, Here(w, id, k).(pc := PersistUp, up := Some(up))) && SameTables(w, v)
  {
    v := Take(c, w, id, k, Buying(k, DoUpload(up), now), g);
  }

  method TakePersistUpload(c: Config, w: World, id: string, k: nat, up: UploadResult, now: int, ghost g: Frame) returns (v: World)
    requires Held(c, w, id, k, g) && Here(w, id, k).pc == PersistUp && Here(w, id, k).up == Some(up)
    ensures Became(c, w, v, id, k, g, Here(w, id, k).(pc := AfterUpload(c, Here(w, id, k).row))) && LedgerOf(v) == LedgerOf(w)
    ensures TableOf(v) == Updated(TableOf(w), id, r => StagedTable.PersistUpload(r, up, now))
  {
    v := Take(c, w, id, k, Buying(k, DoPersistUpload, now), g);
  }

  // ---------- Sui and the ledger ----------

  method TakeExecute(c: Config, w: World, id: string, k: nat, outcome: Execution, now: int, ghost g: Frame) returns (v: World)
    requires Held(c, w, id, k, g) && RegisterReady(At(w, id), Here(w, id, k), DoExecute(outcome))
    ensures SameTables(w, v)
    ensures outcome.Landed? ==> Became(c, w, v, id, k, g, Here(w, id, k).(pc := PersistDigest, digest := Some(outcome.digest)))
    ensures outcome.AlreadyExecuted? ==>
      Became(c, w, v, id, k, g, Here(w, id, k).(pc := PersistDigest, digest := Some(ALREADY_RECORDED)))
    ensures outcome.LandedButLost? ==> Became(c, w, v, id, k, g, Failed(Here(w, id, k), false))
  {
    v := Take(c, w, id, k, Registering(k, DoExecute(outcome), now), g);
  }

  method TakePersistStore(c: Config, w: World, id: string, k: nat, digest: string, now: int, ghost g: Frame) returns (v: World)
    requires Held(c, w, id, k, g) && Here(w, id, k).pc == PersistDigest && Here(w, id, k).digest == Some(digest)
    ensures Became(c, w, v, id, k, g, Here(w, id, k).(pc := AfterDigest(c, Here(w, id, k).row))) && LedgerOf(v) == LedgerOf(w)
    ensures TableOf(v) == Updated(TableOf(w), id, r => StagedTable.PersistStore(r, digest, now))
  {
    v := Take(c, w, id, k, Registering(k, DoPersistStore, now), g);
  }

  method TakeRecord(c: Config, w: World, id: string, k: nat, done: CompletedStore, landed: bool, ok: bool, now: int, ghost g: Frame)
    returns (v: World)
    requires Held(c, w, id, k, g) && Here(w, id, k).pc == Record && done == InlineStore(Here(w, id, k)) && (ok ==> landed)
    ensures Became(c, w, v, id, k, g, Here(w, id, k).(pc := if ok then Mark else Free)) && TableOf(v) == TableOf(w)
    ensures LedgerOf(v) == if landed then WithEntry(LedgerOf(w), BuildLedgerEntry(id, done, c.network, now)) else LedgerOf(w)
  {
    v := Take(c, w, id, k, Registering(k, DoRecord(landed, ok), now), g);
    assert At(v, id).entry == Inserted(At(w, id), landed, done, c, now);
  }

  method TakeMark(c: Config, w: World, id: string, k: nat, landed: bool, now: int, ghost g: Frame) returns (v: World)
    requires Held(c, w, id, k, g) && Here(w, id, k).pc == Mark
    ensures Became(c, w, v, id, k, g, Here(w, id, k).(pc := Free)) && LedgerOf(v) == LedgerOf(w)
    ensures TableOf(v) == if landed then Flagged(TableOf(w), id) else TableOf(w)
  {
    v := Take(c, w, id, k, Registering(k, DoMarkLedgered(landed), now), g);
  }

  /** recordCompletedStore: the insert, then the flag. */
  method TakeLedger(c: Config, w: World, id: string, k: nat, done: CompletedStore, fault: Fault, now: int, ghost g: Frame)
    returns (v: World)
    requires Held(c, w, id, k, g) && Here(w, id, k).pc == Record && done == InlineStore(Here(w, id, k))
    ensures Became(c, w, v, id, k, g, Here(w, id, k).(pc := Free))
    ensures LedgerOf(v) == if fault == RecordFails(false) then LedgerOf(w)
                           else WithEntry(LedgerOf(w), BuildLedgerEntry(id, done, c.network, now))
    ensures TableOf(v) == if fault.RecordFails? || fault == MarkFails(false) then TableOf(w)
                          else Flagged(TableOf(w), id)
  {
    if fault.RecordFails? {
      v := TakeRecord(c, w, id, k, done, fault.landed, false, now, g);
    } else {
      v := TakeRecord(c, w, id, k, done, true, true, now, g);
      v := TakeMark(c, v, id, k, fault.NoFault? || fault.landed, now, g);
    }
  }

  // ---------- the return leg and the end ----------

  method TakeFree(c: Config, w: World, id: string, k: nat, now: int, ghost g: Frame) returns (v: World)
    requires Held(c, w, id, k, g) && Here(w, id, k).pc == Free
    ensures Became(c, w, v, id, k, g, Here(w, id, k).(pc := AfterReturnCheck(Here(w, id, k).row))) && LedgerOf(v) == LedgerOf(w)
    ensures TableOf(v) == Updated(TableOf(w), id, r => StagedTable.FreeBytes(r, now))
  {
    v := Take(c, w, id, k, Delivering(k, DoFreeBytes, now), g);
  }

  method TakeSend(c: Config, w: World, id: string, k: nat, landed: bool, ok: bool, now: int, ghost g: Frame) returns (v: World)
    requires Held(c, w, id, k, g) && Here(w, id, k).pc == Send && Here(w, id, k).up.Some? && (ok ==> landed)
    ensures Became(c, w, v, id, k, g, Here(w, id, k).(sent := landed, pc := if ok then MarkRet else Confirm)) && SameTables(w, v)
  {
    v := Take(c, w, id, k, Delivering(k, DoSend(landed, ok), now), g);
  }

  method TakeConfirm(c: Config, w: World, id: string, k: nat, landed: bool, ok: bool, now: int, ghost g: Frame) returns (v: World)
    requires Held(c, w, id, k, g) && Here(w, id, k).pc == Confirm && Here(w, id, k).up.Some? && (ok ==> landed)
    ensures Became(c, w, v, id, k, g, if ok then Here(w, id, k).(pc := MarkRet) else Failed(Here(w, id, k), true)) && SameTables(w, v)
  {
    v := Take(c, w, id, k, Delivering(k, DoConfirm(landed, ok), now), g);
  }

  method TakeReturned(c: Config, w: World, id: string, k: nat, now: int, ghost g: Frame) returns (v: World)
    requires Held(c, w, id, k, g) && Here(w, id, k).pc == MarkRet
    ensures Became(c, w, v, id, k, g, Here(w, id, k).(pc := Finish)) && LedgerOf(v) == LedgerOf(w)
    ensures TableOf(v) == Updated(TableOf(w), id, r => StagedTable.MarkReturned(r, now))
  {
    v := Take(c, w, id, k, Delivering(k, DoMarkReturned, now), g);
  }

  method TakeDone(c: Config, w: World, id: string, k: nat, now: int, ghost g: Frame) returns (v: World)
    requires Held(c, w, id, k, g) && Here(w, id, k).pc == Finish
    ensures Became(c, w, v, id, k, g, Here(w, id, k).(pc := Booking)) && LedgerOf(v) == LedgerOf(w)
    ensures TableOf(v) == Updated(TableOf(w), id, r => StagedTable.MarkDone(r, now))
  {
    v := Take(c, w, id, k, Delivering(k, DoFinish, now), g);
  }

  method TakeEnd(c: Config, w: World, id: string, k: nat, now: int, ghost g: Frame) returns (v: World)
    requires Held(c, w, id, k, g) && Here(w, id, k).pc == Booking && !Here(w, id, k).guarding.Answered?
    ensures Became(c, w, v, id, k, g, Here(w, id, k).(pc := Ended)) && SameTables(w, v)
  {
    v := Take(c, w, id, k, Delivering(k, DoBook, now), g);
  }

  method TakeBook(c: Config, w: World, id: string, k: nat, d: Pricing.Decision, now: int, ghost g: Frame) returns (v: World)
    requires Held(c, w, id, k, g) && Here(w, id, k).pc == Booking
    requires Here(w, id, k).guarding.Answered? && Here(w, id, k).guarding.decision == d
    ensures Became(c, w, v, id, k, g.(entries := Book(g.entries, CompletionEntry(id, d.escrowUsd, d.costUsd, now))),
                   Here(w, id, k).(pc := Ended))
    ensures SameTables(w, v)
  {
    v := TakeBooked(c, w, id, k, Delivering(k, DoBook, now), CompletionEntry(id, d.escrowUsd, d.costUsd, now), g);
  }

  // ---------- everyone else ----------

  /** Each move is taken if it is another process's and enabled where it comes. */
  method TakeForeign(c: Config, w: World, proc: string, moves: seq<Fleet.Move>, ghost id: string, ghost k: nat, ghost g: Frame)
    returns (v: World)
    requires Held(c, w, id, k, g) && g.proc == proc
    ensures Held(c, v, id, k, g) && Here(v, id, k) == Here(w, id, k)
    ensures moves == [] ==> v == w
  {
    v := w;
    assert OwnKept(w, v, g.proc, id, -1) by { KeptBySelf(w, g.proc, id); }
    for n := 0 to |moves|
      invariant EachReachable(c, v) && Books(v, g.proc, g.entries) && OwnKept(w, v, g.proc, id, -1)
      invariant n == 0 ==> v == w
    {
      var m := moves[n];
      if Enabled(c, At(v, m.id), m.st) && Foreign(At(v, m.id), m.st, proc) {
        ForeignStep(c, v, m, g.proc, g.entries, id, -1);
        OwnKeptTrans(w, v, Made(c, v, m), g.proc, id, -1);
        v := Made(c, v, m);
      }
    }
    StillHere(w, v, id, k, g);
  }

  lemma KeptBySelf(w: World, proc: string, id: string)
    ensures OwnKept(w, w, proc, id, -1)
  {
  }

  lemma StillHere(w: World, v: World, id: string, k: nat, g: Frame)
    requires k < |At(w, id).attempts| && Here(w, id, k).proc == g.proc
    requires OwnKept(w, v, g.proc, id, -1) && OwnKept(g.origin, w, g.proc, id, k)
    ensures k < |At(v, id).attempts| && Here(v, id, k) == Here(w, id, k)
    ensures OwnKept(g.origin, v, g.proc, id, k)
  {
    KeptFor(w, v, g.proc, id, -1, id);
    assert OwnKept(w, v, g.proc, id, k) by {
      forall x ensures KeptAt(At(w, x), At(v, x), g.proc, Spared(x, id, k)) {
        assert KeptAt(At(w, x), At(v, x), g.proc, Spared(x, id, -1));
      }
    }
    OwnKeptTrans(g.origin, w, v, g.proc, id, k);
  }

  /** A working attempt whose row is done finds it delivered, unless a purge came under it. */
  lemma WorkersSeeOrder(c: Config, w: World, id: string, k: nat)
    requires EachReachable(c, w) && k < |At(w, id).attempts| && Working(Here(w, id, k))
    ensures Uncut(At(w, id)) ==>
      id in TableOf(w) && (TableOf(w)[id].state == Done ==> Delivered(TableOf(w)[id]))
  {
    if Uncut(At(w, id)) {
      ReachableIsHealthy(c, w[id]);
      StepOrder(c, w[id]);
    }
  }
}
