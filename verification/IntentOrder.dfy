/** Step order under crashes and races, as long as no purge hits a row an attempt is working on. */
module IntentOrder {
  import opened Wrappers
  import opened StagedTable
  import opened OpsLedger
  import opened IntentProtocol

  /** What a row's columns say about each other. */
  predicate RowOrdered(r: Row, onSui: Option<string>) {
    && (r.storeDigest.Some? ==> r.upload.Some? && onSui.Some?)
    && (r.returned ==> r.storeDigest.Some?)
    && (r.state == Done ==> r.returned && r.bytes.None?)
    && (r.state == Active && r.blobId.Some? && r.bytes.None? ==> r.storeDigest.Some?)
    && (r.received ==> r.deadline.Some? && r.committedBlobId.Some?)
  }

  /** Step results are never cleared once a snapshot has seen them. */
  predicate Grown(was: Row, r: Row) {
    && (was.upload.Some? ==> r.upload.Some?)
    && (was.storeDigest.Some? ==> r.storeDigest.Some?)
    && (was.returned ==> r.returned)
    && (was.received ==> r.received)
  }

  /** What an attempt's position says about the row it works on. */
  predicate Reached(a: Attempt, r: Row, onSui: Option<string>) {
    && Grown(a.row, r)
    && (Between(a.pc, 6, 15) ==> r.upload.Some? && a.up.Some?)
    && (a.pc == PersistUp ==> a.up.Some?)
    && (a.pc == PersistDigest ==> onSui.Some? && a.digest.Some?)
    && (Between(a.pc, 8, 15) ==> r.storeDigest.Some? && a.digest.Some?)
    && (Between(a.pc, 14, 15) ==> r.returned)
    && (a.row.upload.Some? ==> a.up.Some?)
    && (a.row.storeDigest.Some? ==> a.digest.Some?)
  }

  predicate InOrder(i: Intent) {
    && (i.row.Some? ==> RowOrdered(i.row.value, i.onSui))
    && (forall k :: 0 <= k < |i.attempts| && Working(i.attempts[k]) ==>
          i.row.Some? && Reached(i.attempts[k], i.row.value, i.onSui))
  }

  /** One attempt moves and the row only gains: the other attempts' positions stay justified. */
  lemma MoveInOrder(i: Intent, j: Intent, k: nat)
    requires InOrder(i) && k < |i.attempts| == |j.attempts| && j.attempts == i.attempts[k := j.attempts[k]]
    requires i.onSui.Some? ==> j.onSui.Some?
    requires i.row.Some? ==> j.row.Some? && Grown(i.row.value, j.row.value)
    requires j.row.Some? ==> RowOrdered(j.row.value, j.onSui)
    requires Working(j.attempts[k]) ==> j.row.Some? && Reached(j.attempts[k], j.row.value, j.onSui)
    ensures InOrder(j)
  {
  }

  lemma CheckAdvances(c: Config, a: Attempt, p: Check, r: Row, onSui: Option<string>)
    requires Reached(a, r, onSui)
    ensures CheckOutcome(c, a, p).Go? ==> Reached(CheckOutcome(c, a, p).a, r, onSui)
  {
  }

  lemma ConcludeInOrder(i: Intent, k: nat, result: CheckResult, now: int)
    requires InOrder(i) && k < |i.attempts| && Working(i.attempts[k])
    requires result.Go? ==> Reached(result.a, i.row.value, i.onSui)
    ensures InOrder(Conclude(i, k, result, now))
  {
    match result
    case Go(next) => MoveInOrder(i, Moved(i, k, next), k);
    case Stop(error, skip) => RefusedInOrder(i, k, error, skip, now);
  }

  lemma RefusedInOrder(i: Intent, k: nat, error: string, skip: bool, now: int)
    requires InOrder(i) && k < |i.attempts| && Working(i.attempts[k])
    ensures InOrder(Conclude(i, k, Stop(error, skip), now))
  {
    MoveInOrder(i, Conclude(i, k, Stop(error, skip), now), k);
  }

  lemma SettleInOrder(c: Config, i: Intent, k: nat, nextAt: int, error: string, now: int)
    requires InOrder(i) && k < |i.attempts| && i.attempts[k].settle.Pending?
    ensures InOrder(SettleAttempt(c, i, k, nextAt, error, now))
  {
    MoveInOrder(i, SettleAttempt(c, i, k, nextAt, error, now), k);
  }

  lemma ExternalInOrder(c: Config, i: Intent, o: Outside, now: int)
    requires InOrder(i)
    requires ExternalReady(i, o, now) && !ApplyExternal(i, o, now).log.cut
    ensures InOrder(ApplyExternal(i, o, now))
  {
  }

  lemma ClaimInOrder(c: Config, i: Intent, proc: string, leaseMs: int, start: Option<IntentCommitment>, now: int)
    requires InOrder(i)
    requires ClaimReady(i, proc, start, now)
    ensures InOrder(ApplyClaim(i, proc, leaseMs, start, now))
  {
  }

  lemma CheckInOrder(c: Config, i: Intent, k: nat, p: Check, now: int)
    requires InOrder(i)
    requires k < |i.attempts| && CheckReady(i.attempts[k], p)
    ensures InOrder(ApplyCheck(c, i, k, p, now))
  {
    CheckAdvances(c, i.attempts[k], p, i.row.value, i.onSui);
    ConcludeInOrder(i, k, CheckOutcome(c, i.attempts[k], p), now);
  }

  lemma BuyInOrder(c: Config, i: Intent, k: nat, b: Buy, now: int)
    requires InOrder(i)
    requires k < |i.attempts| && BuyReady(i.attempts[k], b)
    ensures InOrder(ApplyBuy(c, i, k, b, now))
  {
    MoveInOrder(i, ApplyBuy(c, i, k, b, now), k);
  }

  lemma LedgerInOrder(c: Config, i: Intent, k: nat, g: Register, now: int)
    requires InOrder(i) && k < |i.attempts| && RegisterReady(i, i.attempts[k], g) && (g.DoRecord? || g.DoMarkLedgered?)
    ensures InOrder(ApplyRegister(c, i, k, g, now))
  {
    MoveInOrder(i, ApplyRegister(c, i, k, g, now), k);
  }

  lemma RegisterInOrder(c: Config, i: Intent, k: nat, g: Register, now: int)
    requires InOrder(i)
    requires k < |i.attempts| && RegisterReady(i, i.attempts[k], g)
    ensures InOrder(ApplyRegister(c, i, k, g, now))
  {
    match g
    case DoExecute(outcome) => MoveInOrder(i, Executed(i, k, outcome), k);
    case DoPersistStore => MoveInOrder(i, DigestPersisted(c, i, k, now), k);
    case _ => LedgerInOrder(c, i, k, g, now);
  }

  lemma SendInOrder(i: Intent, k: nat, landed: bool, ok: bool)
    requires InOrder(i) && k < |i.attempts| && DeliverReady(i.attempts[k], DoSend(landed, ok))
    ensures InOrder(SendTried(i, k, landed, ok))
  {
    MoveInOrder(i, SendTried(i, k, landed, ok), k);
  }

  lemma ConfirmInOrder(i: Intent, k: nat, landed: bool, ok: bool)
    requires InOrder(i) && k < |i.attempts| && DeliverReady(i.attempts[k], DoConfirm(landed, ok))
    ensures InOrder(ConfirmTried(i, k, landed, ok))
  {
    MoveInOrder(i, ConfirmTried(i, k, landed, ok), k);
  }

  lemma QuietDeliveryInOrder(i: Intent, k: nat, d: Deliver, now: int)
    requires InOrder(i) && k < |i.attempts| && DeliverReady(i.attempts[k], d)
    requires d.DoFreeBytes? || d.DoMarkReturned? || d.DoFinish?
    ensures InOrder(ApplyDeliver(i, k, d, now))
  {
    MoveInOrder(i, ApplyDeliver(i, k, d, now), k);
  }

  lemma DeliverInOrder(c: Config, i: Intent, k: nat, d: Deliver, now: int)
    requires InOrder(i)
    requires k < |i.attempts| && DeliverReady(i.attempts[k], d)
    ensures InOrder(ApplyDeliver(i, k, d, now))
  {
    match d
    case DoSend(landed, ok) => SendInOrder(i, k, landed, ok);
    case DoConfirm(landed, ok) => ConfirmInOrder(i, k, landed, ok);
    case DoBook => MoveInOrder(i, BookCompletion(i, k, now), k);
    case _ => QuietDeliveryInOrder(i, k, d, now);
  }

  lemma ControlInOrder(c: Config, i: Intent, k: nat, r: Control, now: int)
    requires InOrder(i)
    requires k < |i.attempts| && ControlReady(i.attempts[k], r)
    ensures InOrder(ApplyControl(c, i, k, r, now))
  {
    if r.SettleRow? {
      SettleInOrder(c, i, k, r.nextAt, r.error, now);
    } else {
      MoveInOrder(i, ApplyControl(c, i, k, r, now), k);
    }
  }

  lemma SweepInOrder(c: Config, i: Intent, f: Backfill, now: int)
    requires InOrder(i)
    requires SweepReady(i, f)
    ensures InOrder(ApplySweep(c, i, f, now))
  {
  }

  lemma StepInOrder(c: Config, i: Intent, st: Step)
    requires Ready(i, st) && InOrder(i) && !Apply(c, i, st).log.cut
    ensures InOrder(Apply(c, i, st))
  {
    match st
    case External(o, now) => ExternalInOrder(c, i, o, now);
    case ClaimRow(proc, leaseMs, start, now) => ClaimInOrder(c, i, proc, leaseMs, start, now);
    case Checking(k, p, now) => CheckInOrder(c, i, k, p, now);
    case Buying(k, b, now) => BuyInOrder(c, i, k, b, now);
    case Registering(k, g, now) => RegisterInOrder(c, i, k, g, now);
    case Delivering(k, d, now) => DeliverInOrder(c, i, k, d, now);
    case Controlling(k, r, now) => ControlInOrder(c, i, k, r, now);
    case Sweeping(f, now) => SweepInOrder(c, i, f, now);
  }
}
