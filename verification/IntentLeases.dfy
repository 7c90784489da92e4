/** The claim lease over whole runs: a row changes hands only after a release or an expiry. */
module IntentLeases {
  import opened Wrappers
  import opened StagedTable
  import opened IntentProtocol

  predicate Holds(i: Intent, proc: string, expiry: int) {
    i.row.Some? && i.row.value.claimedBy == Some(proc) && i.row.value.leaseExpiresAt == Some(expiry)
  }

  /** The step reschedules the row, or deletes it. */
  predicate Frees(c: Config, i: Intent, st: Step) {
    || (st.External? && st.o.PurgeRow?)
    || (st.Controlling? && st.r.SettleRow? && st.k < |i.attempts| && i.attempts[st.k].settle.Pending?
        && i.attempts[st.k].row.attempts + 1 < Limit(c, i.attempts[st.k].settle.post))
  }

  /** Reading the run on: a reschedule or deletion, or a takeover past `expiry`, comes at or before the first claim. */
  predicate FreedOrExpired(c: Config, i: Intent, run: seq<Step>, expiry: int)
    requires IsRun(c, i, run)
    decreases |run|
  {
    && run != []
    && (|| Frees(c, i, run[0])
        || (run[0].ClaimRow? && run[0].now > expiry)
        || (!run[0].ClaimRow? && FreedOrExpired(c, Apply(c, i, run[0]), run[1..], expiry)))
  }

  predicate SomeClaim(run: seq<Step>) {
    exists n :: 0 <= n < |run| && run[n].ClaimRow?
  }

  predicate NoClaimBy(run: seq<Step>, proc: string) {
    forall n :: 0 <= n < |run| && run[n].ClaimRow? ==> run[n].proc != proc
  }

  lemma StepHoldsExternal(c: Config, i: Intent, o: Outside, now: int, proc: string, expiry: int)
    requires ExternalReady(i, o, now) && Holds(i, proc, expiry) && !o.PurgeRow?
    ensures Holds(ApplyExternal(i, o, now), proc, expiry)
  {
  }

  lemma StepHoldsWork(c: Config, i: Intent, st: Step, proc: string, expiry: int)
    requires Ready(i, st) && Holds(i, proc, expiry)
    requires st.Checking? || st.Buying? || st.Sweeping?
    ensures Holds(Apply(c, i, st), proc, expiry)
  {
  }

  lemma StepHoldsRegister(c: Config, i: Intent, k: nat, g: Register, now: int, proc: string, expiry: int)
    requires k < |i.attempts| && RegisterReady(i, i.attempts[k], g) && Holds(i, proc, expiry)
    ensures Holds(ApplyRegister(c, i, k, g, now), proc, expiry)
  {
  }

  lemma StepHoldsDeliver(i: Intent, k: nat, d: Deliver, now: int, proc: string, expiry: int)
    requires k < |i.attempts| && DeliverReady(i.attempts[k], d) && Holds(i, proc, expiry)
    ensures Holds(ApplyDeliver(i, k, d, now), proc, expiry)
  {
  }

  lemma StepHoldsControl(c: Config, i: Intent, k: nat, r: Control, now: int, proc: string, expiry: int)
    requires k < |i.attempts| && ControlReady(i.attempts[k], r) && Holds(i, proc, expiry)
    requires !Frees(c, i, Controlling(k, r, now))
    ensures Holds(ApplyControl(c, i, k, r, now), proc, expiry)
  {
  }

  lemma StepHolds(c: Config, i: Intent, st: Step, proc: string, expiry: int)
    requires Ready(i, st) && Holds(i, proc, expiry) && !st.ClaimRow? && !Frees(c, i, st)
    ensures Holds(Apply(c, i, st), proc, expiry)
  {
    match st
    case External(o, now) => StepHoldsExternal(c, i, o, now, proc, expiry);
    case ClaimRow(_, _, _, _) =>
    case Checking(_, _, _) => StepHoldsWork(c, i, st, proc, expiry);
    case Buying(_, _, _) => StepHoldsWork(c, i, st, proc, expiry);
    case Registering(k, g, now) => StepHoldsRegister(c, i, k, g, now, proc, expiry);
    case Delivering(k, d, now) => StepHoldsDeliver(i, k, d, now, proc, expiry);
    case Controlling(k, r, now) => StepHoldsControl(c, i, k, r, now, proc, expiry);
    case Sweeping(_, _) => StepHoldsWork(c, i, st, proc, expiry);
  }

  lemma {:induction false} HeldUntilFreed(c: Config, i: Intent, run: seq<Step>, proc: string, expiry: int)
    requires IsRun(c, i, run) && Holds(i, proc, expiry) && NoClaimBy(run, proc) && SomeClaim(run)
    ensures FreedOrExpired(c, i, run, expiry)
    decreases |run|
  {
    if !run[0].ClaimRow? && !Frees(c, i, run[0]) {
      StepHolds(c, i, run[0], proc, expiry);
      var n :| 0 <= n < |run| && run[n].ClaimRow?;
      assert run[1..][n - 1].ClaimRow?;
      HeldUntilFreed(c, Apply(c, i, run[0]), run[1..], proc, expiry);
    }
  }

  lemma ClaimHolds(c: Config, i: Intent, proc: string, leaseMs: int, start: Option<IntentCommitment>, now: int)
    requires ClaimReady(i, proc, start, now)
    ensures Holds(ApplyClaim(i, proc, leaseMs, start, now), proc, now + leaseMs)
  {
  }

  /** Lease safety: after one process's last claim, another gets the row only past its expiry or after a reschedule. */
  lemma LeaseSafety(c: Config, i: Intent, claim: Step, later: seq<Step>)
    requires claim.ClaimRow? && Enabled(c, i, claim)
    requires IsRun(c, Apply(c, i, claim), later)
    requires NoClaimBy(later, claim.proc) && SomeClaim(later)
    ensures FreedOrExpired(c, Apply(c, i, claim), later, claim.now + claim.leaseMs)
  {
    ClaimHolds(c, i, claim.proc, claim.leaseMs, claim.start, claim.now);
    HeldUntilFreed(c, Apply(c, i, claim), later, claim.proc, claim.now + claim.leaseMs);
  }

  /** A claimant draining its own leased row holds it from `now` again. */
  lemma OwnClaimRenews(c: Config, i: Intent, proc: string, expiry: int, leaseMs: int, start: Option<IntentCommitment>, now: int)
    requires Holds(i, proc, expiry) && Enabled(c, i, ClaimRow(proc, leaseMs, start, now)) && expiry <= now + leaseMs
    ensures Holds(Apply(c, i, ClaimRow(proc, leaseMs, start, now)), proc, now + leaseMs)
  {
  }

  // ---------- when a row may be claimed, started and recovered, with the clock written out ----------

  /** A rescheduled row is released, and due again from `nextAt` on: not before, and then for any process. */
  lemma RescheduleGates(r: Row, attempts: int, nextAt: int, error: string, now: int, proc: string, later: int)
    ensures Claimable(Reschedule(r, attempts, nextAt, error, now), proc, later) <==>
      r.state == Active && r.received && (r.bytes.Some? || r.upload.Some?) && nextAt <= later
  {
  }

  /** A row whose bytes and event have just arrived, in either order, may be claimed at once. */
  lemma ReadyAtOnce(blob: StagedBytes, details: ReceivedDetails, first: int, second: int, proc: string)
    requires first <= second
    ensures Claimable(Receive(Upsert(None, blob, first), details, second).value, proc, second)
    ensures Claimable(Upsert(Receive(None, details, first), blob, second).value, proc, second)
  {
  }

  /** No attempt starts at or past its row's deadline, on a row another process holds, or beside one of its own process. */
  lemma StartsInTime(c: Config, i: Intent, proc: string, leaseMs: int, commitment: IntentCommitment, now: int)
    requires Enabled(c, i, ClaimRow(proc, leaseMs, Some(commitment), now))
    ensures i.row.Some? && i.row.value.state == Active && i.row.value.received && i.row.value.nextAttemptAt <= now
    ensures i.row.value.deadline.Some? ==> now < i.row.value.deadline.value
    ensures i.row.value.claimedBy.Some? && i.row.value.claimedBy.value != proc ==>
      i.row.value.leaseExpiresAt.Some? && i.row.value.leaseExpiresAt.value < now
    ensures forall k :: 0 <= k < |i.attempts| && i.attempts[k].proc == proc ==> i.attempts[k].pc == Ended
  {
  }

  /** A row only the event reached is recovered from `graceMs` after it on; once tried, not before the backoff; never past its deadline. */
  lemma RecoveryWaits(details: ReceivedDetails, since: int, graceMs: int, nextAt: int, now: int, later: int)
    ensures var r := Receive(None, details, since).value;
            && (RecoveryDue(r, later, graceMs) <==> since + graceMs <= later < details.deadline)
            && (RecoveryDue(BackOffRecovery(r, nextAt, now), later, graceMs) <==> nextAt <= later < details.deadline)
  {
  }
}
