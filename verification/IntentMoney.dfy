/** Never lose money: what each upload was bought for, and what each process books. */
module IntentMoney {
  import opened Wrappers
  import opened StagedTable
  import opened IntentProtocol
  import opened IntentOrder
  import Pricing
  import Settlement
  import StoreEpochs

  /** The guard weighed this escrow against the live cost of exactly this size and duration, and let it through. */
  ghost predicate Backed(c: Config, size: int, epochs: int, terms: Escrow, d: Pricing.Decision) {
    d.proceed && exists market :: c.guard(size, epochs, terms, market) == Success(d)
  }

  /** A completion books what the guard weighed for some spend it let through; a skip books nothing. */
  ghost predicate FairEntry(c: Config, e: Settlement.PnlEntry) {
    match e.status
    case Skipped => e.collectedUsd == 0.0 && e.spentUsd == 0.0
    case Completed =>
      && e.netUsd == e.collectedUsd - e.spentUsd
      && exists size, epochs, terms, d :: Backed(c, size, epochs, terms, d) && d.escrowUsd == e.collectedUsd && d.costUsd == e.spentUsd
  }

  /** The duration is the committed one or longer, and a guarded spend was answered for that duration. */
  ghost predicate Honest(c: Config, size: int, committed: Option<int>, epochs: int, g: Guarding) {
    && (committed.Some? ==> committed.value <= epochs)
    && (g.Answered? ==> Backed(c, size, epochs, g.escrow, g.decision))
  }

  /** What is bought: exactly the committed epochs, one for none, the default where none were committed; never past the cap. */
  predicate BoughtFor(c: Config, committed: Option<int>, epochs: int) {
    match committed
    case None => epochs == c.defaultEpochs <= c.maxEpochs
    case Some(n) => 0 <= n <= c.maxEpochs && epochs == if n == 0 then 1 else n
  }

  ghost predicate AttemptHonest(c: Config, a: Attempt) {
    && Honest(c, a.row.size.GetOr(0), a.committed, a.epochs, a.guarding)
    && (Between(a.pc, 3, 5) ==> a.row.upload.None?)
    && (Between(a.pc, 2, 5) && a.row.upload.None? ==> BoughtFor(c, a.committed, a.epochs))
    && (Between(a.pc, 0, 2) ==> a.guarding.NotAsked?)
    && (c.guardEnabled && Between(a.pc, 3, 5) ==> !a.guarding.NotAsked?)
  }

  ghost predicate SpendHonest(c: Config, s: Spend) {
    && Honest(c, s.size, s.committed, s.epochs, s.guarding)
    && 1 <= s.epochs && BoughtFor(c, s.committed, s.epochs)
    && (c.guardEnabled ==> !s.guarding.NotAsked?)
  }

  ghost predicate MoneySafe(c: Config, i: Intent) {
    && (forall k :: 0 <= k < |i.attempts| ==> AttemptHonest(c, i.attempts[k]))
    && (forall n :: 0 <= n < |i.log.spends| ==> SpendHonest(c, i.log.spends[n]))
    && (forall proc :: proc in i.pnl ==> FairEntry(c, i.pnl[proc]))
  }

  predicate SameMoney(i: Intent, j: Intent) {
    j.log.spends == i.log.spends && j.pnl == i.pnl
  }

  lemma MoveMoney(c: Config, i: Intent, j: Intent, k: nat)
    requires MoneySafe(c, i) && k < |i.attempts| == |j.attempts| && j.attempts == i.attempts[k := j.attempts[k]]
    requires SameMoney(i, j) && AttemptHonest(c, j.attempts[k])
    ensures MoneySafe(c, j)
  {
  }

  /** Fields the money argument reads stay put. */
  predicate SameTerms(a: Attempt, next: Attempt) {
    next.row == a.row && next.committed == a.committed && next.epochs == a.epochs && next.guarding == a.guarding
  }

  lemma MoveSameTerms(c: Config, i: Intent, j: Intent, k: nat)
    requires MoneySafe(c, i) && k < |i.attempts| == |j.attempts| && j.attempts == i.attempts[k := j.attempts[k]]
    requires SameMoney(i, j) && SameTerms(i.attempts[k], j.attempts[k])
    requires Between(j.attempts[k].pc, 6, 16) || j.attempts[k].pc == i.attempts[k].pc
             || (Between(i.attempts[k].pc, 3, 5) && Between(j.attempts[k].pc, 3, 5))
    ensures MoneySafe(c, j)
  {
    assert AttemptHonest(c, j.attempts[k]);
    MoveMoney(c, i, j, k);
  }

  lemma ResolvedHonest(c: Config, a: Attempt, onSuiEpochs: Option<int>, walrusMax: int)
    requires AttemptHonest(c, a) && a.pc == Resolve
    ensures Resolved(c, a, onSuiEpochs, walrusMax).Go? ==> AttemptHonest(c, Resolved(c, a, onSuiEpochs, walrusMax).a)
  {
  }

  lemma GuardHonest(c: Config, a: Attempt, terms: Option<Escrow>, market: Market, verdict: Pricing.Decision)
    requires AttemptHonest(c, a) && a.pc == Guard
    requires Guarded(c, a) && terms.Some? ==>
               c.guard(a.row.size.GetOr(0), a.epochs, terms.value, market) == Success(verdict)
    ensures GuardAnswered(c, a, terms, verdict).Go? ==> AttemptHonest(c, GuardAnswered(c, a, terms, verdict).a)
  {
    if Guarded(c, a) && terms.Some? && verdict.proceed {
      assert Backed(c, a.row.size.GetOr(0), a.epochs, terms.value, verdict);
    }
  }

  lemma CheckHonest(c: Config, i: Intent, k: nat, p: Check, now: int)
    requires MoneySafe(c, i) && k < |i.attempts| && CheckReady(i.attempts[k], p) && Truthful(c, i, Checking(k, p, now))
    ensures CheckOutcome(c, i.attempts[k], p).Go? ==> AttemptHonest(c, CheckOutcome(c, i.attempts[k], p).a)
  {
    match p
    case DoVerify =>
    case DoResolve(onSuiEpochs, walrusMax) => ResolvedHonest(c, i.attempts[k], onSuiEpochs, walrusMax);
    case DoGuard(terms, market, verdict) => GuardHonest(c, i.attempts[k], terms, market, verdict);
  }

  lemma BookedSafe(c: Config, i: Intent, proc: string, e: Settlement.PnlEntry)
    requires MoneySafe(c, i) && FairEntry(c, Settlement.WithNet(e))
    ensures MoneySafe(c, Booked(i, proc, e))
  {
  }

  lemma ConcludeSafe(c: Config, i: Intent, k: nat, result: CheckResult, now: int)
    requires MoneySafe(c, i) && k < |i.attempts|
    requires result.Go? ==> AttemptHonest(c, result.a)
    ensures MoneySafe(c, Conclude(i, k, result, now))
  {
    match result
    case Go(next) => MoveMoney(c, i, Moved(i, k, next), k);
    case Stop(error, skip) =>
      var refused := Goto(i, k, Ended).(row := Killed(i.row, error, now), log := Closed(i));
      MoveSameTerms(c, i, refused, k);
      BookedSafe(c, refused, i.attempts[k].proc, Settlement.SkipEntry(i.id, now));
  }

  lemma UploadSafe(c: Config, i: Intent, k: nat, up: UploadResult)
    requires MoneySafe(c, i) && k < |i.attempts| && BuyReady(i.attempts[k], DoUpload(up))
    ensures MoneySafe(c, Uploaded(i, k, up))
  {
    var a := i.attempts[k];
    var j := Uploaded(i, k, up);
    assert SpendHonest(c, Spend(k, a.row.size.GetOr(0), a.pc.payload, a.committed, a.epochs, a.guarding));
    MoveSameTerms(c, i, j.(log := j.log.(spends := i.log.spends)), k);
  }

  lemma UploadPersistedSafe(c: Config, i: Intent, k: nat, now: int)
    requires MoneySafe(c, i) && k < |i.attempts| && BuyReady(i.attempts[k], DoPersistUpload)
    ensures MoneySafe(c, UploadPersisted(c, i, k, now))
  {
    MoveSameTerms(c, i, UploadPersisted(c, i, k, now), k);
  }

  lemma QuietDeliverySafe(c: Config, i: Intent, k: nat, d: Deliver, now: int)
    requires MoneySafe(c, i) && k < |i.attempts| && DeliverReady(i.attempts[k], d)
    requires d.DoFreeBytes? || d.DoMarkReturned? || d.DoFinish?
    ensures MoneySafe(c, ApplyDeliver(i, k, d, now))
  {
    MoveSameTerms(c, i, ApplyDeliver(i, k, d, now), k);
  }

  lemma CompletionOf(c: Config, i: Intent, a: Attempt, now: int) returns (e: Settlement.PnlEntry)
    requires AttemptHonest(c, a) && a.guarding.Answered?
    ensures e == Settlement.CompletionEntry(i.id, a.guarding.decision.escrowUsd, a.guarding.decision.costUsd, now)
    ensures FairEntry(c, Settlement.WithNet(e))
  {
    var d := a.guarding.decision;
    e := Settlement.CompletionEntry(i.id, d.escrowUsd, d.costUsd, now);
    assert Backed(c, a.row.size.GetOr(0), a.epochs, a.guarding.escrow, d);
  }

  lemma BookCompletionSafe(c: Config, i: Intent, k: nat, now: int)
    requires MoneySafe(c, i) && k < |i.attempts|
    ensures MoneySafe(c, BookCompletion(i, k, now))
  {
    var a := i.attempts[k];
    var ended := Goto(i, k, Ended);
    MoveSameTerms(c, i, ended, k);
    if a.guarding.Answered? {
      var e := CompletionOf(c, i, a, now);
      BookedSafe(c, ended, a.proc, e);
    }
  }

  lemma ExternalMoneySafe(c: Config, i: Intent, o: Outside, now: int)
    requires MoneySafe(c, i)
    requires ExternalReady(i, o, now)
    ensures MoneySafe(c, ApplyExternal(i, o, now))
  {
  }

  lemma ClaimMoneySafe(c: Config, i: Intent, proc: string, leaseMs: int, start: Option<IntentCommitment>, now: int)
    requires MoneySafe(c, i)
    requires ClaimReady(i, proc, start, now)
    ensures MoneySafe(c, ApplyClaim(i, proc, leaseMs, start, now))
  {
  }

  lemma CheckMoneySafe(c: Config, i: Intent, k: nat, p: Check, now: int)
    requires MoneySafe(c, i)
    requires k < |i.attempts| && CheckReady(i.attempts[k], p) && Truthful(c, i, Checking(k, p, now))
    ensures MoneySafe(c, ApplyCheck(c, i, k, p, now))
  {
    CheckHonest(c, i, k, p, now);
    ConcludeSafe(c, i, k, CheckOutcome(c, i.attempts[k], p), now);
  }

  lemma BuyMoneySafe(c: Config, i: Intent, k: nat, b: Buy, now: int)
    requires MoneySafe(c, i)
    requires k < |i.attempts| && BuyReady(i.attempts[k], b)
    ensures MoneySafe(c, ApplyBuy(c, i, k, b, now))
  {
    match b
    case DoFetch => MoveSameTerms(c, i, Fetched(i, k), k);
    case DoUpload(up) => UploadSafe(c, i, k, up);
    case DoPersistUpload => UploadPersistedSafe(c, i, k, now);
  }

  lemma ExecuteMoneySafe(c: Config, i: Intent, k: nat, outcome: Execution)
    requires MoneySafe(c, i) && k < |i.attempts| && RegisterReady(i, i.attempts[k], DoExecute(outcome))
    ensures MoneySafe(c, Executed(i, k, outcome))
  {
    MoveSameTerms(c, i, Executed(i, k, outcome), k);
  }

  lemma DigestMoneySafe(c: Config, i: Intent, k: nat, now: int)
    requires MoneySafe(c, i) && k < |i.attempts| && RegisterReady(i, i.attempts[k], DoPersistStore)
    ensures MoneySafe(c, DigestPersisted(c, i, k, now))
  {
    MoveSameTerms(c, i, DigestPersisted(c, i, k, now), k);
  }

  lemma LedgerMoneySafe(c: Config, i: Intent, k: nat, g: Register, now: int)
    requires MoneySafe(c, i) && k < |i.attempts| && RegisterReady(i, i.attempts[k], g) && (g.DoRecord? || g.DoMarkLedgered?)
    ensures MoneySafe(c, ApplyRegister(c, i, k, g, now))
  {
    MoveSameTerms(c, i, ApplyRegister(c, i, k, g, now), k);
  }

  lemma RegisterMoneySafe(c: Config, i: Intent, k: nat, g: Register, now: int)
    requires MoneySafe(c, i)
    requires k < |i.attempts| && RegisterReady(i, i.attempts[k], g)
    ensures MoneySafe(c, ApplyRegister(c, i, k, g, now))
  {
    match g
    case DoExecute(outcome) => ExecuteMoneySafe(c, i, k, outcome);
    case DoPersistStore => DigestMoneySafe(c, i, k, now);
    case _ => LedgerMoneySafe(c, i, k, g, now);
  }

  lemma ProofMoneySafe(c: Config, i: Intent, k: nat, d: Deliver, now: int)
    requires MoneySafe(c, i) && k < |i.attempts| && DeliverReady(i.attempts[k], d) && (d.DoSend? || d.DoConfirm?)
    ensures MoneySafe(c, ApplyDeliver(i, k, d, now))
  {
    MoveSameTerms(c, i, ApplyDeliver(i, k, d, now), k);
  }

  lemma DeliverMoneySafe(c: Config, i: Intent, k: nat, d: Deliver, now: int)
    requires MoneySafe(c, i)
    requires k < |i.attempts| && DeliverReady(i.attempts[k], d)
    ensures MoneySafe(c, ApplyDeliver(i, k, d, now))
  {
    match d
    case DoBook => BookCompletionSafe(c, i, k, now);
    case DoSend(landed, ok) => ProofMoneySafe(c, i, k, d, now);
    case DoConfirm(landed, ok) => ProofMoneySafe(c, i, k, d, now);
    case _ => QuietDeliverySafe(c, i, k, d, now);
  }

  lemma ControlMoneySafe(c: Config, i: Intent, k: nat, r: Control, now: int)
    requires MoneySafe(c, i)
    requires k < |i.attempts| && ControlReady(i.attempts[k], r)
    ensures MoneySafe(c, ApplyControl(c, i, k, r, now))
  {
    match r
    case SettleRow(nextAt, error) => MoveSameTerms(c, i, SettleAttempt(c, i, k, nextAt, error, now), k);
    case _ => MoveSameTerms(c, i, ApplyControl(c, i, k, r, now), k);
  }

  lemma SweepMoneySafe(c: Config, i: Intent, f: Backfill, now: int)
    requires MoneySafe(c, i)
    requires SweepReady(i, f)
    ensures MoneySafe(c, ApplySweep(c, i, f, now))
  {
  }

  lemma StepMoneySafe(c: Config, i: Intent, st: Step)
    requires Enabled(c, i, st) && MoneySafe(c, i)
    ensures MoneySafe(c, Apply(c, i, st))
  {
    match st
    case External(o, now) => ExternalMoneySafe(c, i, o, now);
    case ClaimRow(proc, leaseMs, start, now) => ClaimMoneySafe(c, i, proc, leaseMs, start, now);
    case Checking(k, p, now) => CheckMoneySafe(c, i, k, p, now);
    case Buying(k, b, now) => BuyMoneySafe(c, i, k, b, now);
    case Registering(k, g, now) => RegisterMoneySafe(c, i, k, g, now);
    case Delivering(k, d, now) => DeliverMoneySafe(c, i, k, d, now);
    case Controlling(k, r, now) => ControlMoneySafe(c, i, k, r, now);
    case Sweeping(f, now) => SweepMoneySafe(c, i, f, now);
  }
}
