/** Retries are bounded: every attempt that fails raises the row's count, closes it, or crashed. */
module IntentRetries {
  import opened Wrappers
  import opened StagedTable
  import opened IntentProtocol
  import opened IntentSafety

  predicate OnlyLastOwing(s: seq<Attempt>) {
    forall k :: 0 <= k < |s| - 1 ==> !Owing(s[k])
  }

  function Last(i: Intent): Attempt
    requires i.attempts != []
  {
    i.attempts[|i.attempts| - 1]
  }

  /** Sends an attempt may still make, also one that timed out and works on. */
  function Owed(a: Attempt): nat {
    if Working(a) && !a.sent then 1 else 0
  }

  function OwedBy(s: seq<Attempt>): nat {
    if s == [] then 0 else OwedBy(s[..|s| - 1]) + Owed(s[|s| - 1])
  }

  lemma {:induction false} OwedUpdate(s: seq<Attempt>, k: nat, a: Attempt)
    requires k < |s|
    ensures OwedBy(s[k := a]) + Owed(s[k]) == OwedBy(s) + Owed(a)
  {
    var n := |s| - 1;
    if k == n {
      assert s[k := a][..n] == s[..n];
    } else {
      assert s[k := a][..n] == s[..n][k := a];
      OwedUpdate(s[..n], k, a);
    }
  }

  lemma OwedAppend(s: seq<Attempt>, a: Attempt)
    ensures OwedBy(s + [a]) == OwedBy(s) + Owed(a)
  {
    assert (s + [a])[..|s|] == s;
  }

  /** Whether the last attempt's own send is still to be paid by its outcome, or the row is closed. */
  function Grace(closed: bool, a: Attempt): nat {
    if closed || a.settle != Settled then 1 else 0
  }

  /** What the rows deleted so far may have paid for: the larger cap each. */
  function Paid(c: Config, purges: nat): int {
    if purges == 0 then 0 else Paid(c, purges - 1) + MaxAttempts(c)
  }

  lemma {:induction false} PaidIs(c: Config, purges: nat)
    ensures Paid(c, purges) == purges * MaxAttempts(c)
  {
    if purges > 0 { PaidIs(c, purges - 1); }
  }

  /** The last attempt works on the present row. */
  predicate OfThisRow(i: Intent) {
    i.log.bygone < |i.attempts|
  }

  /** What the present row has paid for: its count, and the last attempt's own send while that is open. */
  function Credit(i: Intent): int {
    if OfThisRow(i) && i.row.Some? then i.row.value.attempts + Grace(i.log.closed, Last(i)) else 0
  }

  /** The last attempt's outcome will count on from where it started; if there is none to come, it has closed the row. */
  predicate LastCounts(i: Intent) {
    OfThisRow(i) ==>
      && i.row.Some?
      && (Last(i).settle != Settled ==> i.row.value.attempts == Last(i).row.attempts)
      && (Last(i).pc == Ended && Last(i).settle.Open? ==> i.log.closed)
      && (Last(i).pc == Booking ==> i.log.closed)
  }

  predicate InBudget(c: Config, i: Intent) {
    i.log.sends + OwedBy(i.attempts) <= Paid(c, i.log.purges) + i.log.crashed + Credit(i)
  }

  predicate Unsent(a: Attempt) {
    Between(a.pc, 0, 11) ==> !a.sent
  }

  predicate ClosedIsSettled(i: Intent) {
    i.log.closed ==> i.row.Some? && i.row.value.state != Active
  }

  /** LayerZero sends so far are paid for by counted attempts, rows deleted and crashes. */
  predicate Budgeted(c: Config, i: Intent) {
    && OnlyLastOwing(i.attempts)
    && (forall k :: 0 <= k < |i.attempts| ==> Unsent(i.attempts[k]))
    && ClosedIsSettled(i)
    && (i.row.Some? ==> 0 <= i.row.value.attempts)
    && LastCounts(i) && InBudget(c, i)
  }

  /** One attempt moves, spending no more than it pays for. */
  lemma MoveBudgeted(c: Config, i: Intent, j: Intent, k: nat)
    requires Budgeted(c, i) && k < |i.attempts| == |j.attempts| && j.attempts == i.attempts[k := j.attempts[k]]
    requires j.log.bygone == i.log.bygone && j.log.purges == i.log.purges
    requires j.row.Some? ==> 0 <= j.row.value.attempts
    requires ClosedIsSettled(j) && LastCounts(j)
    requires Unsent(j.attempts[k]) && (Owing(j.attempts[k]) ==> Owing(i.attempts[k]))
    requires j.log.sends + Owed(j.attempts[k]) + i.log.crashed + Credit(i) <= i.log.sends + Owed(i.attempts[k]) + j.log.crashed + Credit(j)
    ensures Budgeted(c, j)
  {
    OwedUpdate(i.attempts, k, j.attempts[k]);
  }

  lemma OwingIsLast(c: Config, i: Intent, k: nat)
    requires Budgeted(c, i) && k < |i.attempts| && Owing(i.attempts[k])
    ensures k == |i.attempts| - 1
  {
  }

  /** What the budget reads stays put: neither the count, nor the sends, nor who owes what. */
  predicate SameBudget(a: Attempt, next: Attempt) {
    && next.row == a.row && next.sent == a.sent && next.settle == a.settle && Working(next) && next.pc != Booking
  }

  predicate SameCounts(i: Intent, j: Intent) {
    && j.log.purges == i.log.purges && j.log.bygone == i.log.bygone && j.log.closed == i.log.closed
    && j.log.sends == i.log.sends && j.log.crashed == i.log.crashed
    && (j.row.Some? <==> i.row.Some?)
    && (i.row.Some? ==> j.row.value.attempts == i.row.value.attempts
                        && (i.row.value.state != Active ==> j.row.value.state != Active))
  }

  /** The attempt goes on, having sent nothing. */
  lemma GoesOnBudgeted(c: Config, i: Intent, j: Intent, k: nat)
    requires Budgeted(c, i) && k < |i.attempts| == |j.attempts| && Working(i.attempts[k])
    requires j.attempts == i.attempts[k := j.attempts[k]] && SameCounts(i, j) && SameBudget(i.attempts[k], j.attempts[k])
    requires Between(j.attempts[k].pc, 0, 11) ==> Between(i.attempts[k].pc, 0, 11)
    ensures Budgeted(c, j)
  {
    MoveBudgeted(c, i, j, k);
  }

  /** store() threw: what it might still have sent it will not, and its outcome is to be written unless it already was. */
  lemma FailedBudgeted(c: Config, i: Intent, j: Intent, k: nat, post: bool)
    requires Budgeted(c, i) && k < |i.attempts| == |j.attempts| && Working(i.attempts[k])
    requires j.attempts == i.attempts[k := Failed(i.attempts[k], post)] && SameCounts(i, j)
    ensures Budgeted(c, j)
  {
    MoveBudgeted(c, i, j, k);
  }

  lemma CheckSameBudget(c: Config, a: Attempt, p: Check)
    requires CheckReady(a, p)
    ensures CheckOutcome(c, a, p).Go? ==> SameBudget(a, CheckOutcome(c, a, p).a)
  {
  }

  lemma ConcludeBudgeted(c: Config, i: Intent, k: nat, result: CheckResult, now: int)
    requires Budgeted(c, i) && k < |i.attempts| && Between(i.attempts[k].pc, 0, 2)
    requires result.Go? ==> SameBudget(i.attempts[k], result.a)
    ensures Budgeted(c, Conclude(i, k, result, now))
  {
    MoveBudgeted(c, i, Conclude(i, k, result, now), k);
  }

  lemma SettleBudgeted(c: Config, i: Intent, k: nat, nextAt: int, error: string, now: int)
    requires Budgeted(c, i) && AttemptsBounded(c, i) && k < |i.attempts| && i.attempts[k].settle.Pending?
    ensures Budgeted(c, SettleAttempt(c, i, k, nextAt, error, now))
  {
    OwingIsLast(c, i, k);
    MoveBudgeted(c, i, SettleAttempt(c, i, k, nextAt, error, now), k);
  }

  /** The outcome of a failed attempt of this row, once written, is in it: one attempt more, or settled. */
  lemma SettleRaises(c: Config, i: Intent, k: nat, nextAt: int, error: string, now: int)
    requires Budgeted(c, i) && i.log.bygone <= k < |i.attempts| && i.attempts[k].settle.Pending?
    ensures i.row.Some?
    ensures var r := SettleAttempt(c, i, k, nextAt, error, now).row.value;
            (r.state != Active && r.bytes.None?) || r.attempts == i.row.value.attempts + 1
  {
    OwingIsLast(c, i, k);
  }

  lemma SendBudgeted(c: Config, i: Intent, k: nat, landed: bool, ok: bool)
    requires Budgeted(c, i) && k < |i.attempts| && DeliverReady(i.attempts[k], DoSend(landed, ok))
    ensures Budgeted(c, SendTried(i, k, landed, ok))
  {
    MoveBudgeted(c, i, SendTried(i, k, landed, ok), k);
  }

  lemma ConfirmBudgeted(c: Config, i: Intent, k: nat, landed: bool, ok: bool)
    requires Budgeted(c, i) && k < |i.attempts| && DeliverReady(i.attempts[k], DoConfirm(landed, ok))
    ensures Budgeted(c, ConfirmTried(i, k, landed, ok))
  {
    if ok {
      GoesOnBudgeted(c, i, ConfirmTried(i, k, landed, ok), k);
    } else {
      FailedBudgeted(c, i, ConfirmTried(i, k, landed, ok), k, true);
    }
  }

  lemma FinishBudgeted(c: Config, i: Intent, k: nat, now: int)
    requires Budgeted(c, i) && k < |i.attempts| && i.attempts[k].pc == Finish
    ensures Budgeted(c, ApplyDeliver(i, k, DoFinish, now))
  {
    MoveBudgeted(c, i, ApplyDeliver(i, k, DoFinish, now), k);
  }

  lemma BookBudgeted(c: Config, i: Intent, k: nat, now: int)
    requires Budgeted(c, i) && k < |i.attempts| && i.attempts[k].pc == Booking
    ensures Budgeted(c, BookCompletion(i, k, now))
  {
    MoveBudgeted(c, i, BookCompletion(i, k, now), k);
  }

  /** A deleted row takes its budget with it: at most the larger cap. */
  lemma PurgeBudgeted(c: Config, i: Intent, cutoff: int, now: int)
    requires Budgeted(c, i) && AttemptsBounded(c, i) && ExternalReady(i, PurgeRow(cutoff), now)
    ensures Budgeted(c, ApplyExternal(i, PurgeRow(cutoff), now))
  {
  }

  lemma ExternalBudgeted(c: Config, i: Intent, o: Outside, now: int)
    requires Budgeted(c, i) && AttemptsBounded(c, i) && ExternalReady(i, o, now)
    ensures Budgeted(c, ApplyExternal(i, o, now))
  {
    if o.PurgeRow? { PurgeBudgeted(c, i, o.cutoff, now); }
  }

  /** An attempt starts when every outcome before it is written: the row has paid for every send so far. */
  lemma StartBudgeted(c: Config, i: Intent, j: Intent, a: Attempt)
    requires Budgeted(c, i) && i.log.bygone <= |i.attempts| && !SomeOwing(i) && SameCounts(i, j)
    requires i.row.Some? && i.row.value.state == Active && j.attempts == i.attempts + [a]
    requires a.pc == Verify && !a.sent && a.settle.Open? && a.row.attempts == j.row.value.attempts
    ensures Budgeted(c, j)
  {
    OwedAppend(i.attempts, a);
    NoneOwing(c, i);
  }

  lemma NoneOwing(c: Config, i: Intent)
    requires Budgeted(c, i) && !SomeOwing(i) && i.row.Some? && i.row.value.state == Active
    ensures forall k :: 0 <= k < |i.attempts| ==> !Owing(i.attempts[k])
    ensures Credit(i) <= i.row.value.attempts
  {
    if OfThisRow(i) { assert !Owing(Last(i)); }
  }

  lemma ClaimBudgeted(c: Config, i: Intent, proc: string, leaseMs: int, start: Option<IntentCommitment>, now: int)
    requires Budgeted(c, i) && i.log.bygone <= |i.attempts|
    requires ClaimReady(i, proc, start, now) && !ApplyClaim(i, proc, leaseMs, start, now).log.resumed
    ensures Budgeted(c, ApplyClaim(i, proc, leaseMs, start, now))
  {
    if start.Some? {
      StartBudgeted(c, i, ApplyClaim(i, proc, leaseMs, start, now),
                    StartAttempt(proc, StagedTable.Claim(i.row.value, proc, now, leaseMs), start.value));
    }
  }

  lemma CheckBudgeted(c: Config, i: Intent, k: nat, p: Check, now: int)
    requires Budgeted(c, i) && k < |i.attempts| && CheckReady(i.attempts[k], p)
    ensures Budgeted(c, ApplyCheck(c, i, k, p, now))
  {
    CheckSameBudget(c, i.attempts[k], p);
    ConcludeBudgeted(c, i, k, CheckOutcome(c, i.attempts[k], p), now);
  }

  lemma BuyBudgeted(c: Config, i: Intent, k: nat, b: Buy, now: int)
    requires Budgeted(c, i) && k < |i.attempts| && BuyReady(i.attempts[k], b)
    ensures Budgeted(c, ApplyBuy(c, i, k, b, now))
  {
    match b
    case DoFetch =>
      if i.row.Some? && i.row.value.bytes.Some? {
        GoesOnBudgeted(c, i, Fetched(i, k), k);
      } else {
        FailedBudgeted(c, i, Fetched(i, k), k, false);
      }
    case DoUpload(up) => GoesOnBudgeted(c, i, Uploaded(i, k, up), k);
    case DoPersistUpload => GoesOnBudgeted(c, i, UploadPersisted(c, i, k, now), k);
  }

  lemma ExecuteBudgeted(c: Config, i: Intent, k: nat, outcome: Execution)
    requires Budgeted(c, i) && k < |i.attempts| && RegisterReady(i, i.attempts[k], DoExecute(outcome))
    ensures Budgeted(c, Executed(i, k, outcome))
  {
    if outcome.LandedButLost? {
      FailedBudgeted(c, i, Executed(i, k, outcome), k, false);
    } else {
      GoesOnBudgeted(c, i, Executed(i, k, outcome), k);
    }
  }

  lemma LedgerBudgeted(c: Config, i: Intent, k: nat, g: Register, now: int)
    requires Budgeted(c, i) && k < |i.attempts| && RegisterReady(i, i.attempts[k], g)
    requires g.DoRecord? || g.DoMarkLedgered?
    ensures Budgeted(c, ApplyRegister(c, i, k, g, now))
  {
    GoesOnBudgeted(c, i, ApplyRegister(c, i, k, g, now), k);
  }

  lemma RegisterBudgeted(c: Config, i: Intent, k: nat, g: Register, now: int)
    requires Budgeted(c, i) && k < |i.attempts| && RegisterReady(i, i.attempts[k], g)
    ensures Budgeted(c, ApplyRegister(c, i, k, g, now))
  {
    match g
    case DoExecute(outcome) => ExecuteBudgeted(c, i, k, outcome);
    case DoPersistStore => GoesOnBudgeted(c, i, DigestPersisted(c, i, k, now), k);
    case _ => LedgerBudgeted(c, i, k, g, now);
  }

  lemma QuietDeliveryBudgeted(c: Config, i: Intent, k: nat, d: Deliver, now: int)
    requires Budgeted(c, i) && k < |i.attempts| && DeliverReady(i.attempts[k], d)
    requires d.DoFreeBytes? || d.DoMarkReturned?
    ensures Budgeted(c, ApplyDeliver(i, k, d, now))
  {
    GoesOnBudgeted(c, i, ApplyDeliver(i, k, d, now), k);
  }

  lemma DeliverBudgeted(c: Config, i: Intent, k: nat, d: Deliver, now: int)
    requires Budgeted(c, i) && k < |i.attempts| && DeliverReady(i.attempts[k], d)
    ensures Budgeted(c, ApplyDeliver(i, k, d, now))
  {
    match d
    case DoSend(landed, ok) => SendBudgeted(c, i, k, landed, ok);
    case DoConfirm(landed, ok) => ConfirmBudgeted(c, i, k, landed, ok);
    case DoFinish => FinishBudgeted(c, i, k, now);
    case DoBook => BookBudgeted(c, i, k, now);
    case _ => QuietDeliveryBudgeted(c, i, k, d, now);
  }

  lemma ThrowBudgeted(c: Config, i: Intent, k: nat, now: int)
    requires Budgeted(c, i) && k < |i.attempts| && ControlReady(i.attempts[k], Throw)
    ensures Budgeted(c, ApplyControl(c, i, k, Throw, now))
  {
    FailedBudgeted(c, i, ApplyControl(c, i, k, Throw, now), k, false);
  }

  lemma ControlBudgeted(c: Config, i: Intent, k: nat, r: Control, now: int)
    requires Budgeted(c, i) && AttemptsBounded(c, i) && k < |i.attempts| && ControlReady(i.attempts[k], r)
    ensures Budgeted(c, ApplyControl(c, i, k, r, now))
  {
    match r
    case Throw => ThrowBudgeted(c, i, k, now);
    case SettleRow(nextAt, error) => SettleBudgeted(c, i, k, nextAt, error, now);
    case _ => MoveBudgeted(c, i, ApplyControl(c, i, k, r, now), k);
  }

  lemma SweepBudgeted(c: Config, i: Intent, f: Backfill, now: int)
    requires Budgeted(c, i) && SweepReady(i, f)
    ensures Budgeted(c, ApplySweep(c, i, f, now))
  {
  }

  lemma StepBudgeted(c: Config, i: Intent, st: Step)
    requires Ready(i, st) && Budgeted(c, i) && AttemptsBounded(c, i) && i.log.bygone <= |i.attempts|
    requires !Apply(c, i, st).log.resumed
    ensures Budgeted(c, Apply(c, i, st))
  {
    match st
    case External(o, now) => ExternalBudgeted(c, i, o, now);
    case ClaimRow(proc, leaseMs, start, now) => ClaimBudgeted(c, i, proc, leaseMs, start, now);
    case Checking(k, p, now) => CheckBudgeted(c, i, k, p, now);
    case Buying(k, b, now) => BuyBudgeted(c, i, k, b, now);
    case Registering(k, g, now) => RegisterBudgeted(c, i, k, g, now);
    case Delivering(k, d, now) => DeliverBudgeted(c, i, k, d, now);
    case Controlling(k, r, now) => ControlBudgeted(c, i, k, r, now);
    case Sweeping(f, now) => SweepBudgeted(c, i, f, now);
  }
}
