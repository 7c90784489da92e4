/** The theorems: what holds of one intent after every run, from the first message on. */
module IntentRuns {
  import opened Wrappers
  import opened StagedTable
  import opened OpsLedger
  import opened IntentProtocol
  import opened IntentSafety
  import opened IntentOrder
  import opened IntentSpend
  import opened IntentObject
  import opened IntentDigest
  import opened IntentRetries
  import opened IntentMoney
  import opened IntentPayload

  /** No purge ever hit a row some attempt was working on. */
  predicate Uncut(i: Intent) {
    !i.log.cut
  }

  /** Nor was a row with an object ever purged. */
  predicate NamedOnce(i: Intent) {
    !i.log.cut && i.log.dropped == 0
  }

  /** No attempt ever started from a row without an object while another could still buy one. */
  predicate OneBuyerAtATime(i: Intent) {
    !i.log.buyRaced
  }

  /** No attempt ever started from a row without a digest while another could still record one. */
  predicate OneRecorderAtATime(i: Intent) {
    !i.log.recordRaced
  }

  /** Everything the step lemmas keep, each under its own condition on the history. */
  ghost predicate Healthy(c: Config, i: Intent) {
    && Sound(c, i) && Accounted(i) && MoneySafe(c, i) && Sized(c, i)
    && (Uncut(i) ==> InOrder(i))
    && (OneBuyerAtATime(i) ==> Owned(i))
    && (OneBuyerAtATime(i) && NamedOnce(i) ==> OneName(i))
    && (OneRecorderAtATime(i) ==> Recorded(i))
    && (OneRecorderAtATime(i) && NamedOnce(i) ==> OneMemory(i))
    && (!i.log.resumed ==> Budgeted(c, i))
  }

  lemma FreshIsHealthy(c: Config, id: string)
    requires 1 <= c.maxStoreAttempts && 1 <= c.returnMaxAttempts
    ensures Healthy(c, Fresh(id))
  {
  }

  lemma StepHealthy(c: Config, i: Intent, st: Step)
    requires Enabled(c, i, st) && Healthy(c, i)
    ensures Healthy(c, Apply(c, i, st)) && Monotone(i, Apply(c, i, st))
  {
    var j := Apply(c, i, st);
    StepKeeps(c, i, st);
    StepAccounted(c, i, st);
    StepMoneySafe(c, i, st);
    StepSized(c, i, st);
    if Uncut(j) { StepInOrder(c, i, st); }
    if OneBuyerAtATime(j) { StepOwned(c, i, st); }
    if OneBuyerAtATime(j) && NamedOnce(j) { StepNames(c, i, st); }
    if OneRecorderAtATime(j) { StepRecorded(c, i, st); }
    if OneRecorderAtATime(j) && NamedOnce(j) { StepMemory(c, i, st); }
    if !j.log.resumed { StepBudgeted(c, i, st); }
  }

  lemma {:induction false} RunHealthy(c: Config, i: Intent, run: seq<Step>)
    requires Healthy(c, i) && IsRun(c, i, run)
    ensures Healthy(c, After(c, i, run)) && Monotone(i, After(c, i, run))
    decreases |run|
  {
    if run != [] {
      StepHealthy(c, i, run[0]);
      RunHealthy(c, Apply(c, i, run[0]), run[1..]);
    }
  }

  /** A state some run reaches from the intent's first message. */
  ghost predicate Reachable(c: Config, i: Intent) {
    && 1 <= c.maxStoreAttempts && 1 <= c.returnMaxAttempts
    && exists run :: IsRun(c, Fresh(i.id), run) && After(c, Fresh(i.id), run) == i
  }

  lemma ReachableIsHealthy(c: Config, i: Intent)
    requires Reachable(c, i)
    ensures Healthy(c, i)
  {
    var run :| IsRun(c, Fresh(i.id), run) && After(c, Fresh(i.id), run) == i;
    FreshIsHealthy(c, i.id);
    RunHealthy(c, Fresh(i.id), run);
  }

  // ---------- no resurrection ----------

  /** Between any two points of a run without a purge in between, a settled row stays settled and byte-free. */
  lemma NoResurrection(c: Config, i: Intent, run: seq<Step>)
    requires Reachable(c, i) && Left(i) && IsRun(c, i, run)
    ensures var j := After(c, i, run);
            j.log.purges == i.log.purges ==> Left(j) && j.row.value.bytes.None?
  {
    ReachableIsHealthy(c, i);
    RunHealthy(c, i, run);
  }

  // ---------- the two tables ----------

  /** A store digest once persisted is in the ledger or still in the row, and the ledger entry never changes. */
  lemma NoStoreLostOrRewritten(c: Config, i: Intent, run: seq<Step>)
    requires Reachable(c, i) && IsRun(c, i, run)
    ensures i.log.firstDigest.Some? ==> i.entry.Some? || (i.row.Some? && i.row.value.storeDigest.Some?)
    ensures OneRecorderAtATime(i) && i.log.firstDigest.Some? && i.entry.None? ==> RowDigest(i) == i.log.firstDigest
    ensures i.row.Some? && i.row.value.ledgered ==> i.entry.Some?
    ensures i.entry.Some? ==> After(c, i, run).entry == i.entry
    ensures i.log.firstDigest.Some? ==> After(c, i, run).log.firstDigest == i.log.firstDigest
  {
    ReachableIsHealthy(c, i);
    RunHealthy(c, i, run);
  }

  // ---------- step order ----------

  /** Whatever crashed, raced or was purged quietly: bytes are freed, and a row is done, only after the steps before. */
  lemma StepOrder(c: Config, i: Intent)
    requires Reachable(c, i) && Uncut(i) && i.row.Some?
    ensures var r := i.row.value;
            && (r.state == Done ==> r.upload.Some? && r.storeDigest.Some? && r.returned && r.bytes.None?)
            && (r.state == Active && r.blobId.Some? && r.bytes.None? ==> r.storeDigest.Some? && i.onSui.Some?)
  {
    ReachableIsHealthy(c, i);
  }

  /** An active received row has its deadline and commitment, and exactly one of the two loops can act on it. */
  lemma NoLimbo(c: Config, i: Intent)
    requires Reachable(c, i) && i.row.Some? && i.row.value.state == Active && i.row.value.received
    ensures i.row.value.deadline.Some? && i.row.value.committedBlobId.Some?
    ensures Uncut(i) ==> (Actionable(i.row.value) <==> !NeedsBytes(i.row.value))
  {
    ReachableIsHealthy(c, i);
  }

  // ---------- spend ----------

  /** Conservation of WAL over every run; and nothing is bought over as long as only one attempt at a time may buy. */
  lemma SpendConservation(c: Config, i: Intent)
    requires Reachable(c, i)
    ensures i.log.uploads == i.log.lost + i.log.overwrites + i.log.dropped + InFlight(i.attempts) + OnRow(i)
    ensures OneBuyerAtATime(i) ==> i.log.overwrites == 0 && InFlight(i.attempts) + OnRow(i) <= 1
  {
    ReachableIsHealthy(c, i);
    if OneBuyerAtATime(i) { HoldsOne(i); }
  }

  lemma HoldsOne(i: Intent)
    requires Owned(i)
    ensures InFlight(i.attempts) + OnRow(i) <= 1
  {
    InFlightAtMostOne(i.attempts);
  }

  lemma {:induction false} InFlightAtMostOne(s: seq<Attempt>)
    requires OneBuyer(s) && forall k :: 0 <= k < |s| && s[k].pc == PersistUp ==> MayBuy(s[k])
    ensures InFlight(s) <= 1 && (InFlight(s) == 1 ==> exists k :: 0 <= k < |s| && MayBuy(s[k]))
  {
    if s != [] {
      var n := |s| - 1;
      InFlightAtMostOne(s[..n]);
      if InFlight(s[..n]) == 1 {
        var k :| 0 <= k < n && MayBuy(s[..n][k]);
        assert MayBuy(s[k]) && !MayBuy(s[n]);
      }
      assert s[n].pc == PersistUp ==> MayBuy(s[n]);
    }
  }

  /** While only one attempt at a time may buy, an upload is only ever reached while the row names no object. */
  lemma NoSecondUpload(c: Config, i: Intent, k: nat, up: UploadResult, now: int)
    requires Reachable(c, i) && OneBuyerAtATime(i)
    requires Enabled(c, i, Buying(k, DoUpload(up), now))
    ensures RowUpload(i).None?
    ensures Uncut(i) ==> i.row.Some? && forall n :: 0 <= n < |i.attempts| && Working(i.attempts[n]) ==> n == k
  {
    ReachableIsHealthy(c, i);
    assert MayBuy(i.attempts[k]);
    forall n | Uncut(i) && 0 <= n < |i.attempts| && Working(i.attempts[n]) ensures n == k {
      assert Holds(i.attempts[n], RowUpload(i), false);
    }
  }

  // ---------- one object, one proof, one digest ----------

  /** Sui, every proof and the ledger name the row's object, blob and end epoch. */
  lemma OneObject(c: Config, i: Intent)
    requires Reachable(c, i) && OneBuyerAtATime(i) && NamedOnce(i)
    ensures var up := RowUpload(i);
            && (i.onSui.Some? ==> up.Some? && i.onSui == Some(up.value.walrusObjectId))
            && ProofsOf(i.log.proofs, up)
            && (i.entry.Some? ==> up.Some? && i.entry.value.upload == up)
  {
    ReachableIsHealthy(c, i);
  }

  /** The row holds the first digest it was given, and the ledger holds the row's. */
  lemma OneDigest(c: Config, i: Intent)
    requires Reachable(c, i) && OneRecorderAtATime(i) && NamedOnce(i)
    ensures RowDigest(i) == i.log.firstDigest
    ensures i.entry.Some? ==> i.log.firstDigest.Some? && i.entry.value.storeDigest == LedgerDigest(i.log.firstDigest)
  {
    ReachableIsHealthy(c, i);
  }

  // ---------- in every life of the row ----------

  /** Whatever was purged before: a proof sent or confirmed names the object, blob and end epoch of the row as it is now. */
  lemma EveryProofIsTheRows(c: Config, i: Intent, k: nat, d: Deliver, now: int)
    requires Reachable(c, i) && OneBuyerAtATime(i) && Uncut(i)
    requires Enabled(c, i, Delivering(k, d, now)) && (d.DoSend? || d.DoConfirm?)
    ensures var j, up := Apply(c, i, Delivering(k, d, now)), RowUpload(i);
            && up.Some? && RowUpload(j) == up
            && (j.log.proofs == i.log.proofs
                || j.log.proofs == i.log.proofs + [Proof(up.value.walrusBlobId, up.value.endEpoch)])
  {
    ReachableIsHealthy(c, i);
    PastBuying(i, k);
  }

  /** What an attempt hands to execute_store is the row's object, and so is what Sui then first holds. */
  lemma EveryExecutionIsTheRows(c: Config, i: Intent, k: nat, outcome: Execution, now: int)
    requires Reachable(c, i) && OneBuyerAtATime(i) && Uncut(i)
    requires Enabled(c, i, Registering(k, DoExecute(outcome), now))
    ensures var j, up := Apply(c, i, Registering(k, DoExecute(outcome), now)), RowUpload(i);
            && up.Some? && i.attempts[k].up == up
            && j.onSui == if outcome.AlreadyExecuted? then i.onSui else Some(up.value.walrusObjectId)
  {
    ReachableIsHealthy(c, i);
    PastBuying(i, k);
  }

  /** An entry written inline is made of the row's object and the row's digest. */
  lemma EveryEntryIsTheRows(c: Config, i: Intent, k: nat, landed: bool, ok: bool, now: int)
    requires Reachable(c, i) && OneBuyerAtATime(i) && OneRecorderAtATime(i) && Uncut(i)
    requires Enabled(c, i, Registering(k, DoRecord(landed, ok), now))
    ensures RowUpload(i).Some? && RowDigest(i).Some?
    ensures var j := Apply(c, i, Registering(k, DoRecord(landed, ok), now));
            i.entry.None? && j.entry.Some? ==>
              && j.entry.value.upload == RowUpload(i) && j.entry.value.storeDigest == LedgerDigest(RowDigest(i))
              && j.entry.value.intentId == i.id && j.entry.value.network == c.network
              && j.entry.value.sender == Some(i.attempts[k].commitment.sender)
              && j.entry.value.size == i.attempts[k].row.size && j.entry.value.srcEid == i.attempts[k].row.srcEid
              && j.entry.value.appId == i.attempts[k].row.appId
  {
    ReachableIsHealthy(c, i);
    PastBuying(i, k);
    PastRecording(i, k);
  }

  lemma PastBuying(i: Intent, k: nat)
    requires Owned(i) && !i.log.cut && k < |i.attempts| && Between(i.attempts[k].pc, 6, 15)
    ensures RowUpload(i).Some? && i.attempts[k].up == RowUpload(i)
  {
  }

  lemma PastRecording(i: Intent, k: nat)
    requires Recorded(i) && !i.log.cut && k < |i.attempts| && Between(i.attempts[k].pc, 8, 15)
    ensures RowDigest(i).Some? && i.attempts[k].digest == RowDigest(i)
  {
  }

  // ---------- retries ----------

  /** attempts stays below the larger cap; sends are bounded by that cap for each life of the row, plus the crashes. */
  lemma SendsBounded(c: Config, i: Intent)
    requires Reachable(c, i)
    ensures i.row.Some? ==> 0 <= i.row.value.attempts < MaxAttempts(c)
    ensures !i.log.resumed ==> i.log.sends <= (i.log.purges + 1) * MaxAttempts(c) + i.log.crashed
  {
    ReachableIsHealthy(c, i);
    PaidIs(c, i.log.purges);
    PaidIs(c, i.log.purges + 1);
  }

  /** Writing the outcome of a failed attempt of the present row raises its count by one or leaves it settled. */
  lemma FailureCounts(c: Config, i: Intent, k: nat, nextAt: int, error: string, now: int)
    requires Reachable(c, i) && !i.log.resumed && i.log.bygone <= k
    requires Enabled(c, i, Controlling(k, SettleRow(nextAt, error), now))
    ensures var j := Apply(c, i, Controlling(k, SettleRow(nextAt, error), now));
            Left(j) || (i.row.Some? && j.row.Some? && j.row.value.attempts == i.row.value.attempts + 1)
  {
    ReachableIsHealthy(c, i);
    SettleRaises(c, i, k, nextAt, error, now);
  }

  /** A failed attempt's row dies at the cap of its own phase, and before that is due again at `nextAt` with its lease released. */
  lemma DeadOnlyAtCap(c: Config, i: Intent, k: nat, nextAt: int, error: string, now: int)
    requires Enabled(c, i, Controlling(k, SettleRow(nextAt, error), now)) && i.row.Some?
    ensures var a, r := i.attempts[k], i.row.value;
            Apply(c, i, Controlling(k, SettleRow(nextAt, error), now)).row
            == Some(if a.row.attempts + 1 >= (if a.settle == Pending(true) then c.returnMaxAttempts else c.maxStoreAttempts)
                    then r.(state := Dead, bytes := None, lastError := Some(error), updatedAt := now)
                    else r.(attempts := a.row.attempts + 1, nextAttemptAt := nextAt, lastError := Some(error), updatedAt := now,
                            claimedBy := None, leaseExpiresAt := None))
  {
  }

  /** The return leg's own cap is for one failure only: the confirmation's, after the send's. */
  lemma ReturnCapOnlyAfterConfirm(c: Config, i: Intent, st: Step, k: nat)
    requires Enabled(c, i, st) && k < |i.attempts| && i.attempts[k].settle != Pending(true)
    ensures k < |Apply(c, i, st).attempts|
    ensures Apply(c, i, st).attempts[k].settle == Pending(true) ==>
      st.Delivering? && st.k == k && st.d.DoConfirm? && !st.d.ok && i.attempts[k].pc == Confirm
  {
    match st
    case Delivering(n, d, now) => DeliveryOutcome(i, n, d, now, k);
    case Controlling(n, r, now) => ControlOutcome(c, i, n, r, now, k);
    case Registering(n, g, now) => RegisterOutcome(c, i, n, g, now, k);
    case Checking(n, p, now) => SpendOutcome(c, i, st, k);
    case Buying(n, b, now) => SpendOutcome(c, i, st, k);
    case _ => OtherOutcome(c, i, st, k);
  }

  lemma DeliveryOutcome(i: Intent, n: nat, d: Deliver, now: int, k: nat)
    requires n < |i.attempts| && DeliverReady(i.attempts[n], d) && k < |i.attempts| && i.attempts[k].settle != Pending(true)
    ensures k < |ApplyDeliver(i, n, d, now).attempts|
    ensures ApplyDeliver(i, n, d, now).attempts[k].settle == Pending(true) ==>
      n == k && d.DoConfirm? && !d.ok && i.attempts[k].pc == Confirm
  {
  }

  lemma ControlOutcome(c: Config, i: Intent, n: nat, r: Control, now: int, k: nat)
    requires n < |i.attempts| && ControlReady(i.attempts[n], r) && k < |i.attempts| && i.attempts[k].settle != Pending(true)
    ensures k < |ApplyControl(c, i, n, r, now).attempts|
    ensures ApplyControl(c, i, n, r, now).attempts[k].settle != Pending(true)
  {
  }

  lemma RegisterOutcome(c: Config, i: Intent, n: nat, g: Register, now: int, k: nat)
    requires n < |i.attempts| && RegisterReady(i, i.attempts[n], g) && k < |i.attempts| && i.attempts[k].settle != Pending(true)
    ensures k < |ApplyRegister(c, i, n, g, now).attempts|
    ensures ApplyRegister(c, i, n, g, now).attempts[k].settle != Pending(true)
  {
  }

  lemma SpendOutcome(c: Config, i: Intent, st: Step, k: nat)
    requires Ready(i, st) && k < |i.attempts| && i.attempts[k].settle != Pending(true)
    requires st.Checking? || st.Buying?
    ensures k < |Apply(c, i, st).attempts|
    ensures Apply(c, i, st).attempts[k].settle != Pending(true)
  {
  }

  lemma OtherOutcome(c: Config, i: Intent, st: Step, k: nat)
    requires Ready(i, st) && k < |i.attempts| && i.attempts[k].settle != Pending(true)
    requires st.External? || st.ClaimRow? || st.Sweeping?
    ensures k < |Apply(c, i, st).attempts|
    ensures Apply(c, i, st).attempts[k].settle != Pending(true)
  {
  }

  // ---------- money ----------

  /** What went up is what was priced: every upload had the committed size, and the guard weighed that size. */
  lemma PricedAsUploaded(c: Config, i: Intent)
    requires Reachable(c, i)
    ensures forall n :: 0 <= n < |i.log.spends| ==> i.log.spends[n].size == |i.log.spends[n].payload| == c.committedSize(i.id)
  {
    ReachableIsHealthy(c, i);
  }

  /** No upload is paid for a mismatch: its attempt's row matched the committed reference, and so do the bytes that went up. */
  lemma OnlyMatchingBlobsAreBought(c: Config, i: Intent, n: nat)
    requires Reachable(c, i) && n < |i.log.spends|
    ensures var s := i.log.spends[n];
            && s.buyer < |i.attempts|
            && var a := i.attempts[s.buyer];
               && c.blobIdMatches(a.row.blobId.GetOr(""), a.commitment.committedBlobId.Or(a.row.committedBlobId).GetOr(ZERO_REF))
               && a.row.upload.None? && a.row.size == Some(s.size)
               && c.blobIdMatches(c.blobIdOf(s.payload), c.committedRef(i.id))
  {
    ReachableIsHealthy(c, i);
    assert SpendSized(c, i, i.log.spends[n]);
  }

  /** Every upload is for exactly the committed epochs, the row's before Sui's; one for a committed zero, the default for none. */
  lemma StoredForWhatWasCommitted(c: Config, i: Intent, n: nat)
    requires Reachable(c, i) && n < |i.log.spends|
    ensures var s := i.log.spends[n];
            && s.buyer < |i.attempts|
            && (i.attempts[s.buyer].row.storageEpochs.Some? ==> s.committed == i.attempts[s.buyer].row.storageEpochs)
            && match s.committed
               case Some(n) => 0 <= n <= c.maxEpochs && s.epochs == if n == 0 then 1 else n
               case None => s.epochs == c.defaultEpochs <= c.maxEpochs
  {
    ReachableIsHealthy(c, i);
    assert SpendSized(c, i, i.log.spends[n]) && SpendHonest(c, i.log.spends[n]);
  }
}
