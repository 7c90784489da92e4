/** BreakEvenGuardService.check: the live WAL cost for the duration the store buys, then the guard. */
module BreakEvenService {
  import opened Wrappers
  import opened IntentProtocol
  import opened IntentMoney
  import opened IntentRuns
  import opened Charges
  import Pricing
  import Settlement
  import WalCost

  function CheckSpend(c: Config, size: int, epochs: int, terms: Escrow, market: Market): Result<Pricing.Decision> {
    var cost := WalCost.ComputeWalCost(size, epochs, market.wal);
    if cost.Failure? then Failure(cost.error)
    else Pricing.EvaluateBreakEven(Pricing.GuardInputs(
           terms.escrowNative, terms.originToken, cost.value.total, c.returnLzFeeMist, c.suiGasMist, c.minMargin, market.prices))
  }

  /** The configuration whose injected guard is this service. */
  function WithBreakEvenGuard(c: Config): Config {
    c.(guard := (size, epochs, terms, market) => CheckSpend(c, size, epochs, terms, market))
  }

  ghost predicate GuardsWithBreakEven(c: Config) {
    forall size, epochs, terms, market :: c.guard(size, epochs, terms, market) == CheckSpend(c, size, epochs, terms, market)
  }

  lemma InjectedGuardChecks(c: Config)
    ensures GuardsWithBreakEven(WithBreakEvenGuard(c))
  {
    var d := WithBreakEvenGuard(c);
    forall size, epochs, terms, market ensures d.guard(size, epochs, terms, market) == CheckSpend(d, size, epochs, terms, market) {
    }
  }

  /** The decision is about this spend: the escrow's worth, the three fees with the live WAL price of this size and duration. */
  predicate Weighed(c: Config, size: int, epochs: int, terms: Escrow, market: Market, d: Pricing.Decision) {
    var wal := WalCost.ComputeWalCost(size, epochs, market.wal);
    && wal.Success? && PricedFor(terms.originToken, market.prices)
    && d.escrowUsd == Worth(terms.escrowNative, terms.originToken, OriginPrice(terms.originToken, market.prices))
    && d.costUsd == FeesUsd(wal.value.total, c.returnLzFeeMist, c.suiGasMist,
                            market.prices[Pricing.WAL], market.prices[Pricing.SUI])
  }

  /** The escrow is worth the three fees and the margin on top of them. */
  predicate PaysFor(c: Config, size: int, epochs: int, terms: Escrow, market: Market) {
    var wal := WalCost.ComputeWalCost(size, epochs, market.wal);
    && wal.Success? && PricedFor(terms.originToken, market.prices)
    && Pays(Worth(terms.escrowNative, terms.originToken, OriginPrice(terms.originToken, market.prices)),
            FeesUsd(wal.value.total, c.returnLzFeeMist, c.suiGasMist,
                    market.prices[Pricing.WAL], market.prices[Pricing.SUI]),
            c.minMargin)
  }

  /** What the service answers is about this spend, and it lets it through exactly when the escrow pays. */
  lemma ServiceWeighs(c: Config, size: int, epochs: int, terms: Escrow, market: Market)
    ensures var answer := CheckSpend(c, size, epochs, terms, market);
            answer.Success? ==>
              && Weighed(c, size, epochs, terms, market, answer.value)
              && (answer.value.proceed <==> PaysFor(c, size, epochs, terms, market))
              && (answer.value.proceed ==> Pricing.Covers(answer.value.escrowUsd, answer.value.costUsd, c.minMargin))
  {
    if CheckSpend(c, size, epochs, terms, market).Success? {
      GuardDecides(SpendInputs(c, size, epochs, terms, market));
    }
  }

  function SpendInputs(c: Config, size: int, epochs: int, terms: Escrow, market: Market): Pricing.GuardInputs
    requires WalCost.ComputeWalCost(size, epochs, market.wal).Success?
  {
    Pricing.GuardInputs(terms.escrowNative, terms.originToken, WalCost.ComputeWalCost(size, epochs, market.wal).value.total,
                        c.returnLzFeeMist, c.suiGasMist, c.minMargin, market.prices)
  }

  /** Let through, and for this very size, duration and escrow, at some market the guard read. */
  ghost predicate Paid(c: Config, size: int, epochs: int, terms: Escrow, d: Pricing.Decision) {
    exists market :: Weighed(c, size, epochs, terms, market, d) && PaysFor(c, size, epochs, terms, market)
  }

  lemma BackedCovers(c: Config, size: int, epochs: int, terms: Escrow, d: Pricing.Decision)
    requires GuardsWithBreakEven(c) && Backed(c, size, epochs, terms, d)
    ensures Paid(c, size, epochs, terms, d) && Pricing.Covers(d.escrowUsd, d.costUsd, c.minMargin)
  {
    var market :| c.guard(size, epochs, terms, market) == Success(d);
    assert CheckSpend(c, size, epochs, terms, market) == Success(d);
    ServiceWeighs(c, size, epochs, terms, market);
  }

  /** The booked amounts are an escrow's worth and the three fees of a spend that it paid for. */
  ghost predicate BookedAtCost(c: Config, e: Settlement.PnlEntry) {
    e.status.Completed? ==>
      exists size, epochs, terms, d :: Paid(c, size, epochs, terms, d) && d.escrowUsd == e.collectedUsd && d.costUsd == e.spentUsd
  }

  lemma FairIsCovered(c: Config, e: Settlement.PnlEntry)
    requires GuardsWithBreakEven(c) && FairEntry(c, e) && e.status.Completed?
    ensures Pricing.Covers(e.collectedUsd, e.spentUsd, c.minMargin) && BookedAtCost(c, e)
  {
    var size, epochs, terms, d :|
      Backed(c, size, epochs, terms, d) && d.escrowUsd == e.collectedUsd && d.costUsd == e.spentUsd;
    BackedCovers(c, size, epochs, terms, d);
  }

  lemma CoveredIsProfitable(e: Settlement.PnlEntry, margin: real)
    requires e.netUsd == e.collectedUsd - e.spentUsd && Pricing.Covers(e.collectedUsd, e.spentUsd, margin)
    ensures Settlement.Profitable(e.(status := Settlement.Completed), margin)
  {
    Pricing.CoveredNetsMargin(e.collectedUsd, e.spentUsd, margin);
  }

  /** Whatever a process may book, it books at a profit. */
  lemma FairIsProfitable(c: Config, e: Settlement.PnlEntry)
    requires GuardsWithBreakEven(c) && FairEntry(c, e)
    ensures Settlement.Profitable(e, c.minMargin) && BookedAtCost(c, e)
  {
    if e.status.Completed? {
      FairIsCovered(c, e);
      CoveredIsProfitable(e, c.minMargin);
      assert e == e.(status := Settlement.Completed);
    }
  }

  /** The escrow weighed for the spend was worth the fees of its size and duration, with the margin. */
  ghost predicate SpendCovered(c: Config, s: Spend) {
    s.guarding.Answered? ==> Paid(c, s.size, s.epochs, s.guarding.escrow, s.guarding.decision)
  }

  lemma HonestIsCovered(c: Config, s: Spend)
    requires GuardsWithBreakEven(c) && SpendHonest(c, s)
    ensures SpendCovered(c, s)
  {
    if s.guarding.Answered? {
      BackedCovers(c, s.size, s.epochs, s.guarding.escrow, s.guarding.decision);
    }
  }

  /**
    With the guard on, every upload was weighed or had no escrow to weigh; every weighed escrow was worth the WAL cost of the
    bought epochs plus both SUI fees, with the margin; and whatever is booked was booked at those amounts, at a profit.
   */
  lemma NeverLoseMoney(c: Config, i: Intent)
    requires Reachable(c, i) && GuardsWithBreakEven(c)
    ensures forall n :: 0 <= n < |i.log.spends| ==> SpendHonest(c, i.log.spends[n]) && SpendCovered(c, i.log.spends[n])
    ensures forall n :: 0 <= n < |i.log.spends| ==> c.guardEnabled ==> !i.log.spends[n].guarding.NotAsked?
    ensures forall proc :: proc in i.pnl ==> Settlement.Profitable(i.pnl[proc], c.minMargin) && BookedAtCost(c, i.pnl[proc])
  {
    ReachableIsHealthy(c, i);
    forall n | 0 <= n < |i.log.spends| ensures SpendCovered(c, i.log.spends[n]) {
      HonestIsCovered(c, i.log.spends[n]);
    }
    forall proc | proc in i.pnl ensures Settlement.Profitable(i.pnl[proc], c.minMargin) && BookedAtCost(c, i.pnl[proc]) {
      FairIsProfitable(c, i.pnl[proc]);
    }
  }
}
