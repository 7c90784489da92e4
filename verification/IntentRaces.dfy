/** Why the theorems have their conditions: for each, a run in which it fails and the conclusion with it. */
module IntentRaces {
  import opened Wrappers
  import opened StagedTable
  import opened OpsLedger
  import opened IntentProtocol
  import Pricing
  import WalCost

  const BLOB := StagedBytes([1, 2, 3], "blob", 3, None, None)
  const DETAILS := ReceivedDetails(40161, "blob", 1000, None, Some(5))
  /** The event once more, with a later deadline. */
  const LATE := DETAILS.(deadline := 9000)
  const SENDER := IntentCommitment("sender", None)
  const FIRST := UploadResult("first", "blob", 7)
  const SECOND := UploadResult("second", "blob", 7)

  const UNASKED := Pricing.Decision(false, 0.0, 0.0, 0.0, 0.0, None)
  const MARKET := Market(map[], WalCost.SystemState(0, 0, 0, WalCost.RS2))

  /** The guard off, eight attempts, storage up to ten epochs. */
  const CONFIG := Config(false, (size, epochs, terms, market) => Success(UNASKED), 0.0, 0, 0, 1, 10, true, "testnet", 8, 8,
                         id => 3, id => "blob", bytes => "blob", (blobId, ref) => blobId == ref)

  /** The intent committed to these three bytes. */
  predicate CommitsTo(c: Config, id: string) {
    c.committedSize(id) == 3 && c.blobIdOf([1, 2, 3]) == "blob" && c.blobIdMatches("blob", c.committedRef(id))
  }

  /** The row's blob id is the one the event named. */
  predicate NamesTheBlob(c: Config, a: Attempt) {
    a.row.blobId == a.row.committedBlobId == Some("blob") && a.commitment == SENDER && c.blobIdMatches("blob", "blob")
  }

  lemma Take(c: Config, i: Intent, run: seq<Step>, s: Intent, st: Step) returns (run': seq<Step>, s': Intent)
    requires IsRun(c, i, run) && After(c, i, run) == s && Enabled(c, s, st)
    ensures run' == run + [st] && s' == Apply(c, s, st)
    ensures IsRun(c, i, run') && After(c, i, run') == s'
  {
    run' := run + [st];
    s' := Apply(c, s, st);
    RunExtends(c, i, run, s, st);
  }

  // ---------- pieces of runs ----------

  /** A run from the first message to `s`. */
  predicate Leads(c: Config, id: string, run: seq<Step>, s: Intent) {
    IsRun(c, Fresh(id), run) && After(c, Fresh(id), run) == s
  }

  /** The row after the bytes and the event arrived. */
  function ReadyRow(now: int): Row {
    WithReceived(WithBytes(NewRow(now), BLOB), DETAILS).(updatedAt := now)
  }

  /** Bytes and event arrive where there is no row. */
  lemma Arrive(c: Config, id: string, run: seq<Step>, s: Intent, now: int) returns (run': seq<Step>, s': Intent)
    requires Leads(c, id, run, s) && s.row.None? && CommitsTo(c, s.id)
    ensures Leads(c, id, run', s') && s' == s.(row := Some(ReadyRow(now)))
  {
    run', s' := Take(c, Fresh(id), run, s, External(Ingest(BLOB), now));
    run', s' := Take(c, Fresh(id), run', s', External(Received(DETAILS), now));
  }

  /** The k-th attempt has just started from this row, before any object or digest. */
  predicate Started(s: Intent, k: nat) {
    && k < |s.attempts| && s.row.Some? && s.row.value.bytes == Some([1, 2, 3])
    && s.attempts[k].pc == Verify && s.attempts[k].row.upload.None? && s.attempts[k].row.storeDigest.None?
    && s.attempts[k].row.storageEpochs == Some(5) && s.attempts[k].row.size == Some(3)
    && NamesTheBlob(CONFIG, s.attempts[k])
  }

  /** The checks pass, and there is nothing for the guard to weigh. */
  lemma CheckThrough(c: Config, id: string, run: seq<Step>, s: Intent, k: nat) returns (run': seq<Step>, s': Intent)
    requires Leads(c, id, run, s) && k < |s.attempts| && s.attempts[k].pc == Verify && 5 <= c.maxEpochs
    requires !Guarded(c, s.attempts[k]) && s.attempts[k].row.storageEpochs == Some(5) && NamesTheBlob(c, s.attempts[k])
    ensures Leads(c, id, run', s')
    ensures s' == Moved(s, k, s.attempts[k].(committed := Some(5), epochs := 5, pc := AfterGuard(c, s.attempts[k].row)))
  {
    run', s' := Take(c, Fresh(id), run, s, Checking(k, DoVerify, 2));
    run', s' := Take(c, Fresh(id), run', s', Checking(k, DoResolve(None, 10), 2));
    run', s' := Take(c, Fresh(id), run', s', Checking(k, DoGuard(None, MARKET, UNASKED), 2));
  }

  /** The checks pass and the attempt fetches its bytes. */
  lemma Prepare(id: string, run: seq<Step>, s: Intent, k: nat) returns (run': seq<Step>, s': Intent)
    requires Leads(CONFIG, id, run, s) && Started(s, k)
    ensures Leads(CONFIG, id, run', s')
    ensures s' == Moved(s, k, s.attempts[k].(committed := Some(5), epochs := 5, pc := Uploading([1, 2, 3])))
  {
    run', s' := CheckThrough(CONFIG, id, run, s, k);
    run', s' := Take(CONFIG, Fresh(id), run', s', Buying(k, DoFetch, 2));
  }

  /** Another attempt starts, on the row as it is now. */
  lemma StartNext(c: Config, id: string, run: seq<Step>, s: Intent, proc: string, now: int) returns (run': seq<Step>, s': Intent)
    requires Leads(c, id, run, s) && ClaimReady(s, proc, Some(SENDER), now)
    ensures Leads(c, id, run', s')
    ensures s' == s.(row := Some(Claim(s.row.value, proc, now, 100)),
                     attempts := s.attempts + [StartAttempt(proc, Claim(s.row.value, proc, now, 100), SENDER)], log := s'.log)
    ensures s'.log == s.log.(buyRaced := s.log.buyRaced || (s.row.value.upload.None? && SomeMayBuy(s)),
                             recordRaced := s.log.recordRaced || (s.row.value.storeDigest.None? && SomeMayRecord(s)),
                             resumed := s.log.resumed || SomeOwing(s))
  {
    run', s' := Take(c, Fresh(id), run, s, ClaimRow(proc, 100, Some(SENDER), now));
  }

  predicate AboutToUpload(s: Intent, k: nat) {
    k < |s.attempts| && s.row.Some? && s.attempts[k].pc.Uploading? && s.attempts[k].epochs == 5 && s.attempts[k].row.storeDigest.None?
  }

  function SpendOf(k: nat, a: Attempt): Spend
    requires a.pc.Uploading?
  {
    Spend(k, a.row.size.GetOr(0), a.pc.payload, a.committed, a.epochs, a.guarding)
  }

  /** The attempt uploads and persists its object. */
  lemma Buy(c: Config, id: string, run: seq<Step>, s: Intent, k: nat, up: UploadResult) returns (run': seq<Step>, s': Intent)
    requires Leads(c, id, run, s) && AboutToUpload(s, k)
    ensures Leads(c, id, run', s')
    ensures s' == Moved(s, k, s.attempts[k].(up := Some(up), pc := Execute)).(
                    row := Some(PersistUpload(s.row.value, up, 6)),
                    log := s.log.(uploads := s.log.uploads + 1, spends := s.log.spends + [SpendOf(k, s.attempts[k])],
                                  overwrites := s.log.overwrites + if s.row.value.upload.Some? then 1 else 0))
  {
    run', s' := Take(c, Fresh(id), run, s, Buying(k, DoUpload(up), 6));
    run', s' := Take(c, Fresh(id), run', s', Buying(k, DoPersistUpload, 6));
  }

  predicate Executing(c: Config, s: Intent, k: nat) {
    && c.ledgerOn && k < |s.attempts| && s.row.Some? && s.attempts[k].pc == Execute && s.attempts[k].up.Some?
    && !s.attempts[k].row.ledgered
  }

  /** What execute_store answers: a digest the first time, the marker afterwards. */
  function DigestGiven(s: Intent): string {
    if s.onSui.Some? then ALREADY_RECORDED else "digest"
  }

  lemma Register(c: Config, id: string, run: seq<Step>, s: Intent, k: nat) returns (run': seq<Step>, s': Intent)
    requires Leads(c, id, run, s) && Executing(c, s, k)
    ensures Leads(c, id, run', s')
    ensures s' == Moved(s, k, s.attempts[k].(digest := Some(DigestGiven(s)), pc := Record)).(
                    onSui := s.onSui.Or(Some(s.attempts[k].up.value.walrusObjectId)),
                    row := Some(PersistStore(s.row.value, DigestGiven(s), 7)),
                    log := s.log.(firstDigest := s.log.firstDigest.Or(Some(DigestGiven(s)))))
  {
    var outcome := if s.onSui.Some? then AlreadyExecuted else Landed("digest");
    run', s' := Take(c, Fresh(id), run, s, Registering(k, DoExecute(outcome), 7));
    run', s' := Take(c, Fresh(id), run', s', Registering(k, DoPersistStore, 7));
  }

  /** The ledger write goes through and the bytes are freed. */
  lemma Keep(c: Config, id: string, run: seq<Step>, s: Intent, k: nat) returns (run': seq<Step>, s': Intent)
    requires Leads(c, id, run, s) && k < |s.attempts| && s.row.Some? && s.attempts[k].pc == Record
    ensures Leads(c, id, run', s')
    ensures s' == Moved(s, k, s.attempts[k].(pc := AfterReturnCheck(s.attempts[k].row))).(
                    entry := Inserted(s, true, InlineStore(s.attempts[k]), c, 8),
                    row := Some(FreeBytes(MarkLedgered(s.row.value), 8)))
  {
    run', s' := Take(c, Fresh(id), run, s, Registering(k, DoRecord(true, true), 8));
    run', s' := Take(c, Fresh(id), run', s', Registering(k, DoMarkLedgered(true), 8));
    run', s' := Take(c, Fresh(id), run', s', Delivering(k, DoFreeBytes, 8));
  }

  /** The proof is sent and the row settled; what the guard said decides what is booked. */
  lemma Return(c: Config, id: string, run: seq<Step>, s: Intent, k: nat) returns (run': seq<Step>, s': Intent)
    requires Leads(c, id, run, s) && k < |s.attempts| && s.row.Some? && s.attempts[k].pc == Send && s.attempts[k].up.Some?
    requires !s.attempts[k].guarding.Answered?
    ensures Leads(c, id, run', s')
    ensures s'.row == Some(MarkDone(MarkReturned(s.row.value, 9), 9)) && s'.onSui == s.onSui && s'.entry == s.entry
    ensures s'.pnl == s.pnl && s'.jobs == s.jobs && s'.id == s.id
    ensures s'.attempts == s.attempts[k := s.attempts[k].(sent := true, pc := Ended)]
    ensures s'.log == ProofLog(s, s.attempts[k], true).(sends := s.log.sends + 1, closed := true)
  {
    run', s' := Take(c, Fresh(id), run, s, Delivering(k, DoSend(true, true), 9));
    run', s' := Take(c, Fresh(id), run', s', Delivering(k, DoMarkReturned, 9));
    run', s' := Take(c, Fresh(id), run', s', Delivering(k, DoFinish, 9));
    run', s' := Take(c, Fresh(id), run', s', Delivering(k, DoBook, 9));
  }

  /** From execute_store to the end. */
  lemma Complete(c: Config, id: string, run: seq<Step>, s: Intent, k: nat) returns (run': seq<Step>, s': Intent)
    requires Leads(c, id, run, s) && Executing(c, s, k) && !s.attempts[k].row.returned && !s.attempts[k].guarding.Answered?
    ensures Leads(c, id, run', s') && s'.pnl == s.pnl && s'.id == s.id
    ensures s'.row == Some(MarkDone(MarkReturned(FreeBytes(MarkLedgered(PersistStore(s.row.value, DigestGiven(s), 7)), 8), 9), 9))
    ensures s'.onSui == s.onSui.Or(Some(s.attempts[k].up.value.walrusObjectId))
    ensures s.entry.None? ==> s'.entry.Some? && s'.entry.value.upload == s.attempts[k].up
    ensures |s'.attempts| == |s.attempts| && s'.attempts[k].pc == Ended && s'.attempts[k].settle == s.attempts[k].settle
    ensures s'.log == s.log.(firstDigest := s.log.firstDigest.Or(Some(DigestGiven(s))), sends := s.log.sends + 1,
                             closed := true, proofs := s'.log.proofs)
  {
    run', s' := Register(c, id, run, s, k);
    run', s' := Keep(c, id, run', s', k);
    run', s' := Return(c, id, run', s', k);
  }

  /** One process claimed the row and its attempt holds the bytes, ready to upload. */
  lemma BytesInHand(id: string) returns (run: seq<Step>, s: Intent)
    ensures Leads(CONFIG, id, run, s)
    ensures s.row == Some(Claim(ReadyRow(0), "p1", 1, 100)) && s.id == id
    ensures s.attempts == [StartAttempt("p1", s.row.value, SENDER).(
                             committed := Some(5), epochs := 5, pc := Uploading([1, 2, 3]))]
    ensures s.onSui == None && s.entry == None && s.pnl == map[] && s.log == Fresh(id).log
  {
    run, s := [], Fresh(id);
    run, s := Arrive(CONFIG, id, run, s, 0);
    run, s := Take(CONFIG, Fresh(id), run, s, ClaimRow("p1", 100, Some(SENDER), 1));
    run, s := Prepare(id, run, s, 0);
  }

  /** A timeout settles the row under the running attempt, and another process takes it. */
  lemma HandOver(id: string, run: seq<Step>, s: Intent) returns (run': seq<Step>, s': Intent)
    requires Leads(CONFIG, id, run, s) && |s.attempts| == 1 && s.row.Some? && Working(s.attempts[0])
    requires s.attempts[0].settle.Open? && s.attempts[0].row.attempts == 0 && Actionable(s.row.value)
    requires s.row.value.deadline == Some(1000) && s.attempts[0].proc == "p1"
    ensures Leads(CONFIG, id, run', s')
    ensures s'.row == Some(Claim(Reschedule(s.row.value, 1, 4, "timeout", 3), "p2", 5, 100))
    ensures s'.attempts == [s.attempts[0].(settle := Settled), StartAttempt("p2", s'.row.value, SENDER)]
    ensures s'.onSui == s.onSui && s'.entry == s.entry && s'.id == s.id
    ensures s'.log == s.log.(buyRaced := s.log.buyRaced || (s.row.value.upload.None? && MayBuy(s.attempts[0])),
                             recordRaced := s.log.recordRaced || (s.row.value.storeDigest.None? && MayRecord(s.attempts[0])))
  {
    run', s' := Take(CONFIG, Fresh(id), run, s, Controlling(0, Timeout, 3));
    run', s' := Take(CONFIG, Fresh(id), run', s', Controlling(0, SettleRow(4, "timeout"), 3));
    assert s'.attempts == [s.attempts[0].(settle := Settled)] && !Owing(s'.attempts[0]);
    run', s' := StartNext(CONFIG, id, run', s', "p2", 5);
  }

  /** A purge of a row nobody is working on, and the same bytes and event again. */
  lemma MakeAnew(id: string, run: seq<Step>, s: Intent, cutoff: int) returns (run': seq<Step>, s': Intent)
    requires Leads(CONFIG, id, run, s) && s.row.Some? && Purgeable(s.row.value, cutoff) && !SomeWorking(s)
    ensures Leads(CONFIG, id, run', s')
    ensures s' == s.(row := Some(ReadyRow(cutoff + 2)), log := s'.log)
    ensures s'.log == s.log.(purges := s.log.purges + 1, bygone := |s.attempts|, closed := false,
                             dropped := s.log.dropped + if s.row.value.upload.Some? then 1 else 0)
  {
    run', s' := Take(CONFIG, Fresh(id), run, s, External(PurgeRow(cutoff), cutoff + 1));
    run', s' := Arrive(CONFIG, id, run', s', cutoff + 2);
  }

  /** No attempt is working or owes its outcome: the next one starts without any of the three flags. */
  lemma StartAlone(id: string, run: seq<Step>, s: Intent, proc: string, now: int) returns (run': seq<Step>, s': Intent)
    requires Leads(CONFIG, id, run, s) && ClaimReady(s, proc, Some(SENDER), now) && NoneUnsettled(s)
    ensures Leads(CONFIG, id, run', s')
    ensures s' == s.(row := Some(Claim(s.row.value, proc, now, 100)),
                     attempts := s.attempts + [StartAttempt(proc, Claim(s.row.value, proc, now, 100), SENDER)])
  {
    run', s' := StartNext(CONFIG, id, run, s, proc, now);
  }

  predicate NoneUnsettled(s: Intent) {
    forall k :: 0 <= k < |s.attempts| ==> !Unsettled(s.attempts[k])
  }

  // ---------- one buyer at a time ----------

  /** A timeout hands the row over while the first attempt may still buy: two uploads, and Sui holds the one the row lost. */
  lemma TimeoutCanBuyTwice(id: string) returns (run: seq<Step>, s: Intent)
    ensures Leads(CONFIG, id, run, s)
    ensures s.log.buyRaced && !s.log.cut && !s.log.resumed && s.log.dropped == 0 && s.log.crashed == 0
    ensures s.log.uploads == 2 && s.log.lost == 0 && s.log.overwrites == 1
    ensures s.onSui == Some("first") && s.row.Some? && s.row.value.upload == Some(SECOND)
  {
    run, s := BytesInHand(id);
    run, s := HandOver(id, run, s);
    run, s := Prepare(id, run, s, 1);
    run, s := Buy(CONFIG, id, run, s, 0, FIRST);
    run, s := Buy(CONFIG, id, run, s, 1, SECOND);
    run, s := Register(CONFIG, id, run, s, 0);
  }

  // ---------- one recorder at a time ----------

  /** A timeout after the upload is harmless to the object, but the second attempt's marker replaces the first digest. */
  lemma MarkerCanReplaceDigest(id: string) returns (run: seq<Step>, s: Intent)
    ensures Leads(CONFIG, id, run, s)
    ensures s.log.recordRaced && !s.log.buyRaced && !s.log.cut && !s.log.resumed && s.log.dropped == 0
    ensures s.onSui == Some("first") && s.row.Some? && s.row.value.upload == Some(FIRST)
    ensures s.log.firstDigest == Some("digest") && s.entry.None? && s.row.value.storeDigest == Some(ALREADY_RECORDED)
  {
    run, s := BytesInHand(id);
    run, s := Buy(CONFIG, id, run, s, 0, FIRST);
    run, s := HandOver(id, run, s);
    run, s := Register(CONFIG, id, run, s, 0);
    run, s := CheckThrough(CONFIG, id, run, s, 1);
    run, s := Register(CONFIG, id, run, s, 1);
  }

  // ---------- no purge under a working attempt ----------

  /** The row is expired and purged under an attempt about to record it, and a late event makes it anew. */
  lemma PurgedUnderWork(id: string) returns (run: seq<Step>, s: Intent)
    ensures Leads(CONFIG, id, run, s)
    ensures s.log.cut && s.log.purges == 1 && !s.log.buyRaced && !s.log.recordRaced && !s.log.resumed
    ensures s.row == Some(WithReceived(NewRow(3002), DETAILS)) && s.onSui == None && s.entry == None && s.id == id
    ensures |s.attempts| == 1 && Executing(CONFIG, s, 0) && !s.attempts[0].row.returned && !s.attempts[0].guarding.Answered?
  {
    run, s := BytesInHand(id);
    run, s := Buy(CONFIG, id, run, s, 0, FIRST);
    run, s := PurgeUnder(id, run, s);
  }

  lemma PurgeUnder(id: string, run: seq<Step>, s: Intent) returns (run': seq<Step>, s': Intent)
    requires Leads(CONFIG, id, run, s) && |s.attempts| == 1 && Working(s.attempts[0]) && s.row.Some?
    requires s.row.value.state == Active && s.row.value.deadline == Some(1000) && s.row.value.storeDigest.None?
    ensures Leads(CONFIG, id, run', s')
    ensures s' == s.(row := Some(WithReceived(NewRow(3002), DETAILS)), log := s'.log)
    ensures s'.log == s.log.(purges := s.log.purges + 1, bygone := 1, closed := false, cut := true, dropped := s'.log.dropped)
  {
    run', s' := PurgeOnly(id, run, s);
    run', s' := Take(CONFIG, Fresh(id), run', s', External(Received(DETAILS), 3002));
  }

  lemma PurgeOnly(id: string, run: seq<Step>, s: Intent) returns (run': seq<Step>, s': Intent)
    requires Leads(CONFIG, id, run, s) && |s.attempts| == 1 && Working(s.attempts[0]) && s.row.Some?
    requires s.row.value.state == Active && s.row.value.deadline == Some(1000) && s.row.value.storeDigest.None?
    ensures Leads(CONFIG, id, run', s') && s' == s.(row := None, log := s'.log)
    ensures s'.log == s.log.(purges := s.log.purges + 1, bygone := 1, closed := false, cut := true,
                             dropped := s.log.dropped + if s.row.value.upload.Some? then 1 else 0)
  {
    run', s' := Take(CONFIG, Fresh(id), run, s, External(ExpireRow, 2000));
    assert Working(s'.attempts[0]);
    run', s' := Take(CONFIG, Fresh(id), run', s', External(PurgeRow(3000), 3001));
  }

  /** The attempt goes on to persist a digest: a received active row that neither loop can take. */
  lemma PurgeCanStrand(id: string) returns (run: seq<Step>, s: Intent)
    ensures Leads(CONFIG, id, run, s) && s.log.cut && s.log.purges == 1
    ensures s.row.Some? && s.row.value.state == Active && s.row.value.received
    ensures !Actionable(s.row.value) && !NeedsBytes(s.row.value)
  {
    run, s := PurgedUnderWork(id);
    run, s := Register(CONFIG, id, run, s, 0);
  }

  /** And on to the end: a done row that never named an object. */
  lemma PurgeCanFinishWithoutObject(id: string) returns (run: seq<Step>, s: Intent)
    ensures Leads(CONFIG, id, run, s) && s.log.cut && s.log.purges == 1
    ensures s.row.Some? && s.row.value.state == Done && s.row.value.upload.None?
  {
    run, s := PurgedUnderWork(id);
    run, s := Complete(CONFIG, id, run, s, 0);
  }

  /** An attempt whose row was purged works on, and the row made since is bought for while it does. */
  lemma PurgeCanLeaveTwoWorking(id: string) returns (run: seq<Step>, s: Intent)
    ensures Leads(CONFIG, id, run, s) && s.log.cut && !s.log.buyRaced
    ensures |s.attempts| == 2 && Working(s.attempts[0]) && Enabled(CONFIG, s, Buying(1, DoUpload(SECOND), 4000))
  {
    run, s := BytesInHand(id);
    run, s := PurgeOnly(id, run, s);
    run, s := BuyWithoutRow(id, run, s);
    run, s := Take(CONFIG, Fresh(id), run, s, External(Ingest(BLOB), 3002));
    run, s := Take(CONFIG, Fresh(id), run, s, External(Received(LATE), 3002));
    run, s := StartBeside(id, run, s);
    run, s := Prepare(id, run, s, 1);
  }

  lemma StartBeside(id: string, run: seq<Step>, s: Intent) returns (run': seq<Step>, s': Intent)
    requires Leads(CONFIG, id, run, s) && |s.attempts| == 1
    requires s.row == Some(WithReceived(WithBytes(NewRow(3002), BLOB), LATE).(updatedAt := 3002))
    requires s.attempts[0].pc == Execute && s.attempts[0].proc == "p1" && s.log.cut && !s.log.buyRaced
    ensures Leads(CONFIG, id, run', s') && s'.log.cut && !s'.log.buyRaced
    ensures |s'.attempts| == 2 && s'.attempts[0] == s.attempts[0] && Started(s', 1)
  {
    assert !InProcess(s, "p2") && !MayBuy(s.attempts[0]);
    run', s' := StartNext(CONFIG, id, run, s, "p2", 3003);
  }

  /** The row is purged before the upload lands on it: Sui and the ledger come to name an object no row ever did. */
  lemma PurgeCanOrphanObject(id: string) returns (run: seq<Step>, s: Intent)
    ensures Leads(CONFIG, id, run, s)
    ensures s.log.cut && !s.log.buyRaced && !s.log.recordRaced && s.log.dropped == 0
    ensures s.onSui == Some("first") && s.row.None? && s.log.firstDigest.None?
    ensures s.entry.Some? && s.entry.value.upload == Some(FIRST) && s.entry.value.storeDigest == Some("digest")
  {
    run, s := BytesInHand(id);
    run, s := PurgeOnly(id, run, s);
    run, s := BuyWithoutRow(id, run, s);
    run, s := RecordWithoutRow(id, run, s);
  }

  /** The upload is bought, but there is no row to keep it. */
  lemma BuyWithoutRow(id: string, run: seq<Step>, s: Intent) returns (run': seq<Step>, s': Intent)
    requires Leads(CONFIG, id, run, s) && |s.attempts| == 1 && s.row.None?
    requires s.attempts[0].pc.Uploading? && s.attempts[0].epochs == 5 && s.attempts[0].row.storeDigest.None?
    ensures Leads(CONFIG, id, run', s')
    ensures s' == Moved(s, 0, s.attempts[0].(up := Some(FIRST), pc := Execute)).(
                    log := s.log.(uploads := s.log.uploads + 1, lost := s.log.lost + 1, spends := s'.log.spends))
  {
    run', s' := Take(CONFIG, Fresh(id), run, s, Buying(0, DoUpload(FIRST), 6));
    run', s' := Take(CONFIG, Fresh(id), run', s', Buying(0, DoPersistUpload, 6));
  }

  lemma RecordWithoutRow(id: string, run: seq<Step>, s: Intent) returns (run': seq<Step>, s': Intent)
    requires Leads(CONFIG, id, run, s) && |s.attempts| == 1 && s.row.None? && s.onSui.None? && s.entry.None? && s.id == id
    requires s.attempts[0].pc == Execute && s.attempts[0].up == Some(FIRST) && !s.attempts[0].row.ledgered
    ensures Leads(CONFIG, id, run', s') && s'.row.None? && s'.onSui == Some("first") && s'.log == s.log
    ensures s'.entry.Some? && s'.entry.value.upload == Some(FIRST) && s'.entry.value.storeDigest == Some("digest")
  {
    run', s' := Take(CONFIG, Fresh(id), run, s, Registering(0, DoExecute(Landed("digest")), 7));
    run', s' := Take(CONFIG, Fresh(id), run', s', Registering(0, DoPersistStore, 7));
    run', s' := Take(CONFIG, Fresh(id), run', s', Registering(0, DoRecord(true, true), 8));
  }

  // ---------- no purge of a row with an object ----------

  /** A finished intent is purged in peace, and a late upload and event run it again: Sui and the ledger keep the old names. */
  lemma QuietPurgeCanRename(id: string) returns (run: seq<Step>, s: Intent)
    ensures Leads(CONFIG, id, run, s)
    ensures !s.log.cut && !s.log.buyRaced && !s.log.recordRaced && !s.log.resumed && s.log.dropped == 1
    ensures s.onSui == Some("first") && s.entry.Some? && s.entry.value.upload == Some(FIRST)
    ensures s.row.Some? && s.row.value.upload == Some(SECOND)
    ensures s.log.firstDigest == Some("digest") && s.row.value.storeDigest == Some(ALREADY_RECORDED)
  {
    run, s := BytesInHand(id);
    run, s := Buy(CONFIG, id, run, s, 0, FIRST);
    run, s := Complete(CONFIG, id, run, s, 0);
    run, s := RunAgain(id, run, s);
  }

  lemma RunAgain(id: string, run: seq<Step>, s: Intent) returns (run': seq<Step>, s': Intent)
    requires Leads(CONFIG, id, run, s) && s.row.Some? && Purgeable(s.row.value, 500) && s.row.value.upload.Some? && s.id == id
    requires |s.attempts| == 1 && s.attempts[0].pc == Ended && s.attempts[0].settle.Open? && s.onSui.Some?
    ensures Leads(CONFIG, id, run', s')
    ensures s'.onSui == s.onSui && s'.entry == s.entry
    ensures s'.row.Some? && s'.row.value.upload == Some(SECOND) && s'.row.value.storeDigest == Some(ALREADY_RECORDED)
    ensures s'.log.cut == s.log.cut && s'.log.buyRaced == s.log.buyRaced && s'.log.recordRaced == s.log.recordRaced
    ensures s'.log.resumed == s.log.resumed && s'.log.dropped == s.log.dropped + 1
    ensures s.log.firstDigest.Some? ==> s'.log.firstDigest == s.log.firstDigest
  {
    run', s' := MakeAnew(id, run, s, 500);
    run', s' := StartAlone(id, run', s', "p1", 503);
    run', s' := Prepare(id, run', s', 1);
    run', s' := Buy(CONFIG, id, run', s', 1, SECOND);
    run', s' := Register(CONFIG, id, run', s', 1);
  }

  // ---------- no attempt before the last one's outcome ----------

  predicate StoredUnreturned(r: Row) {
    && r.state == Active && r.received && r.attempts == 0 && r.nextAttemptAt == 0 && r.deadline == Some(1000)
    && r.claimedBy == Some("p1") && r.upload == Some(FIRST) && r.storeDigest.Some? && r.ledgered && !r.returned
    && r.storageEpochs == Some(5) && r.blobId == r.committedBlobId == Some("blob")
  }

  /** Everything is stored; n attempts have sent their proof, none heard back, and none wrote its outcome. */
  predicate Resending(s: Intent, n: nat) {
    && |s.attempts| == n && s.log.sends == n
    && (forall k :: 0 <= k < n ==> s.attempts[k].pc == Ended && s.attempts[k].settle == Pending(true) && s.attempts[k].row.attempts == 0)
    && s.row.Some?
    && StoredUnreturned(s.row.value)
    && s.log.purges == 0 && s.log.crashed == 0 && !s.log.cut && !s.log.buyRaced && !s.log.recordRaced
  }

  /** The proof goes out and the answer is lost; so is that of the confirmation. */
  lemma SendUnheard(id: string, run: seq<Step>, s: Intent, k: nat) returns (run': seq<Step>, s': Intent)
    requires Leads(CONFIG, id, run, s) && k < |s.attempts| && s.attempts[k].pc == Send && s.attempts[k].up.Some?
    requires s.attempts[k].settle.Open?
    ensures Leads(CONFIG, id, run', s')
    ensures s'.row == s.row && s'.onSui == s.onSui && s'.id == s.id
    ensures s'.attempts == s.attempts[k := s.attempts[k].(sent := true, pc := Ended, settle := Pending(true))]
    ensures s'.log == s.log.(sends := s.log.sends + 1, proofs := s'.log.proofs)
  {
    run', s' := Take(CONFIG, Fresh(id), run, s, Delivering(k, DoSend(true, false), 9));
    run', s' := Take(CONFIG, Fresh(id), run', s', Delivering(k, DoConfirm(false, false), 9));
  }

  lemma FirstUnheard(id: string) returns (run: seq<Step>, s: Intent)
    ensures Leads(CONFIG, id, run, s) && Resending(s, 1)
  {
    run, s := BytesInHand(id);
    run, s := Buy(CONFIG, id, run, s, 0, FIRST);
    run, s := Register(CONFIG, id, run, s, 0);
    run, s := Keep(CONFIG, id, run, s, 0);
    run, s := SendUnheard(id, run, s, 0);
  }

  /** The process claims its own row again before the outcome is written. */
  lemma SendAgain(id: string, run: seq<Step>, s: Intent, n: nat) returns (run': seq<Step>, s': Intent)
    requires Leads(CONFIG, id, run, s) && Resending(s, n) && 1 <= n
    ensures Leads(CONFIG, id, run', s') && Resending(s', n + 1)
  {
    run', s' := StartNext(CONFIG, id, run, s, "p1", 10);
    run', s' := CheckThrough(CONFIG, id, run', s', n);
    run', s' := Take(CONFIG, Fresh(id), run', s', Delivering(n, DoFreeBytes, 10));
    run', s' := SendUnheard(id, run', s', n);
  }

  /** Without crash, purge or count: as many proofs as one likes. */
  lemma {:induction false} ResumingCanSendForever(id: string, n: nat) returns (run: seq<Step>, s: Intent)
    requires 1 <= n
    ensures Leads(CONFIG, id, run, s) && Resending(s, n)
    decreases n
  {
    if n == 1 {
      run, s := FirstUnheard(id);
    } else {
      run, s := ResumingCanSendForever(id, n - 1);
      run, s := SendAgain(id, run, s, n - 1);
    }
  }

  /** Two outcomes from one snapshot count once: the second leaves the row active and its count as it was. */
  lemma ResumingCanMiscount(id: string) returns (run: seq<Step>, s: Intent, st: Step)
    ensures Leads(CONFIG, id, run, s) && s.log.purges == 0 && s.row.Some? && s.row.value.state == Active
    ensures st == Controlling(1, SettleRow(20, "unheard"), 12) && Enabled(CONFIG, s, st)
    ensures var j := Apply(CONFIG, s, st);
            j.row.Some? && j.row.value.state == Active && j.row.value.attempts == s.row.value.attempts == 1
  {
    run, s := ResumingCanSendForever(id, 2);
    run, s := Take(CONFIG, Fresh(id), run, s, Controlling(0, SettleRow(20, "unheard"), 11));
    st := Controlling(1, SettleRow(20, "unheard"), 12);
  }

  // ---------- attempts of the present row ----------

  /** The outcome of an attempt whose row was purged lands on the row made since, and raises its count by two. */
  lemma BygoneCanMiscount(id: string) returns (run: seq<Step>, s: Intent, st: Step)
    ensures Leads(CONFIG, id, run, s) && !s.log.cut && !s.log.resumed && s.log.bygone == 2
    ensures st == Controlling(1, SettleRow(20, "late"), 4000) && Enabled(CONFIG, s, st)
    ensures s.row.Some? && s.row.value.attempts == 0
    ensures var j := Apply(CONFIG, s, st); j.row.Some? && j.row.value.state == Active && j.row.value.attempts == 2
  {
    run, s := FailOnce(id);
    run, s := FailAgainAndPurge(id, run, s);
    st := Controlling(1, SettleRow(20, "late"), 4000);
    LateOutcome(s);
  }

  lemma LateOutcome(s: Intent)
    requires s.row == Some(ReadyRow(3002)) && |s.attempts| == 2
    requires s.attempts[1].settle.Pending? && s.attempts[1].row.attempts == 1
    ensures Enabled(CONFIG, s, Controlling(1, SettleRow(20, "late"), 4000))
    ensures var j := Apply(CONFIG, s, Controlling(1, SettleRow(20, "late"), 4000));
            j.row.Some? && j.row.value.state == Active && j.row.value.attempts == 2
  {
  }

  lemma FailOnce(id: string) returns (run: seq<Step>, s: Intent)
    ensures Leads(CONFIG, id, run, s) && s.id == id && s.log == Fresh(id).log
    ensures s.row == Some(Reschedule(Claim(ReadyRow(0), "p1", 1, 100), 1, 4, "failed", 3))
    ensures |s.attempts| == 1 && !Unsettled(s.attempts[0])
  {
    run, s := BytesInHand(id);
    run, s := Take(CONFIG, Fresh(id), run, s, Controlling(0, Throw, 3));
    run, s := Take(CONFIG, Fresh(id), run, s, Controlling(0, SettleRow(4, "failed"), 3));
  }

  lemma FailAgainAndPurge(id: string, run: seq<Step>, s: Intent) returns (run': seq<Step>, s': Intent)
    requires Leads(CONFIG, id, run, s) && s.id == id && |s.attempts| == 1 && !Unsettled(s.attempts[0]) && s.row.Some?
    requires Claimable(s.row.value, "p1", 5) && s.row.value.attempts == 1 && s.row.value.deadline == Some(1000)
    requires s.row.value.storeDigest.None?
    ensures Leads(CONFIG, id, run', s') && s'.log.cut == s.log.cut && s'.log.resumed == s.log.resumed && s'.log.bygone == 2
    ensures s'.row == Some(ReadyRow(3002)) && |s'.attempts| == 2
    ensures s'.attempts[1].settle.Pending? && s'.attempts[1].row.attempts == 1 && s'.attempts[1].pc == Ended
  {
    run', s' := StartAlone(id, run, s, "p1", 5);
    run', s' := ThrowAndExpire(id, run', s', 1);
    run', s' := MakeAnew(id, run', s', 3000);
  }

  lemma ThrowAndExpire(id: string, run: seq<Step>, s: Intent, k: nat) returns (run': seq<Step>, s': Intent)
    requires Leads(CONFIG, id, run, s) && k < |s.attempts| && s.attempts[k].pc == Verify && s.attempts[k].settle.Open?
    requires s.row.Some? && s.row.value.state == Active && s.row.value.deadline == Some(1000)
    ensures Leads(CONFIG, id, run', s')
    ensures s' == s.(row := Some(Expire(s.row.value, 2000)),
                     attempts := s.attempts[k := s.attempts[k].(pc := Ended, settle := Pending(false))])
  {
    run', s' := Take(CONFIG, Fresh(id), run, s, Controlling(k, Throw, 6));
    run', s' := Take(CONFIG, Fresh(id), run', s', External(ExpireRow, 2000));
  }

  // ---------- what the book does not show ----------

  /** A process dies after a guarded upload; whoever resumes has no guard answer of its own, so the profit is never booked. */
  lemma CompletionCanGoUnbooked(c: Config, id: string, terms: Escrow, market: Market, d: Pricing.Decision) returns (run: seq<Step>, s: Intent)
    requires c.guardEnabled && c.ledgerOn && 5 <= c.maxEpochs && CommitsTo(c, id) && c.blobIdMatches("blob", "blob")
    requires c.guard(3, 5, terms, market) == Success(d) && d.proceed
    ensures Leads(c, id, run, s) && s.row.Some? && s.row.value.state == Done && s.pnl == map[]
    ensures |s.log.spends| == 1 && s.log.spends[0].guarding == Answered(terms, d)
  {
    run, s := GuardedUpload(c, id, terms, market, d);
    run, s := DieAndHandOver(c, id, run, s);
    run, s := CheckThrough(c, id, run, s, 1);
    run, s := Complete(c, id, run, s, 1);
  }

  lemma DieAndHandOver(c: Config, id: string, run: seq<Step>, s: Intent) returns (run': seq<Step>, s': Intent)
    requires Leads(c, id, run, s) && |s.attempts| == 1 && Executing(c, s, 0) && s.attempts[0].proc == "p1"
    requires s.row == Some(PersistUpload(Claim(ReadyRow(0), "p1", 1, 100), FIRST, 6)) && s.attempts[0].settle.Open?
    ensures Leads(c, id, run', s') && s'.row == Some(Claim(s.row.value, "p2", 200, 100)) && |s'.attempts| == 2
    ensures s'.attempts[1] == StartAttempt("p2", s'.row.value, SENDER)
    ensures s'.onSui == s.onSui && s'.entry == s.entry && s'.pnl == s.pnl && s'.id == s.id && s'.log.spends == s.log.spends
  {
    run', s' := Take(c, Fresh(id), run, s, Controlling(0, Kill, 6));
    run', s' := StartNext(c, id, run', s', "p2", 200);
  }

  lemma GuardedUpload(c: Config, id: string, terms: Escrow, market: Market, d: Pricing.Decision) returns (run: seq<Step>, s: Intent)
    requires c.guardEnabled && c.ledgerOn && 5 <= c.maxEpochs && CommitsTo(c, id) && c.blobIdMatches("blob", "blob")
    requires c.guard(3, 5, terms, market) == Success(d) && d.proceed
    ensures Leads(c, id, run, s) && s.id == id && |s.attempts| == 1 && Executing(c, s, 0) && s.attempts[0].proc == "p1"
    ensures s.row == Some(PersistUpload(Claim(ReadyRow(0), "p1", 1, 100), FIRST, 6))
    ensures s.onSui == None && s.pnl == map[] && |s.log.spends| == 1 && s.log.spends[0].guarding == Answered(terms, d)
    ensures s.attempts[0].settle.Open?
  {
    run, s := [], Fresh(id);
    run, s := Arrive(c, id, run, s, 0);
    run, s := Take(c, Fresh(id), run, s, ClaimRow("p1", 100, Some(SENDER), 1));
    run, s := PassGuard(c, id, run, s, 0, terms, market, d);
    run, s := Take(c, Fresh(id), run, s, Buying(0, DoFetch, 2));
    run, s := Buy(c, id, run, s, 0, FIRST);
  }

  lemma PassGuard(c: Config, id: string, run: seq<Step>, s: Intent, k: nat, terms: Escrow, market: Market, d: Pricing.Decision)
    returns (run': seq<Step>, s': Intent)
    requires Leads(c, id, run, s) && k < |s.attempts| && s.attempts[k].pc == Verify && 5 <= c.maxEpochs
    requires Guarded(c, s.attempts[k]) && s.attempts[k].row.storageEpochs == Some(5) && s.attempts[k].row.size == Some(3)
    requires NamesTheBlob(c, s.attempts[k])
    requires c.guard(3, 5, terms, market) == Success(d) && d.proceed
    ensures Leads(c, id, run', s')
    ensures s' == Moved(s, k, s.attempts[k].(committed := Some(5), epochs := 5, guarding := Answered(terms, d), pc := Fetch))
  {
    run', s' := Take(c, Fresh(id), run, s, Checking(k, DoVerify, 2));
    run', s' := Take(c, Fresh(id), run', s', Checking(k, DoResolve(None, 10), 2));
    run', s' := Take(c, Fresh(id), run', s', Checking(k, DoGuard(Some(terms), market, d), 2));
  }
}
