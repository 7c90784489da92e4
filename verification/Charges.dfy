/** What the guard and the quote charge, with every fee, price and unit written out. */
module Charges {
  import opened Wrappers
  import opened Pricing

  /** Wei in an ether, lamports in a sol. */
  function PerOrigin(origin: OriginToken): real {
    match origin
    case OriginETH => 1000000000000000000.0
    case OriginSOL => 1000000000.0
  }

  /** `amount` of the origin token's smallest unit, in dollars. */
  function Worth(amount: int, origin: OriginToken, price: real): real {
    amount as real / PerOrigin(origin) * price
  }

  /** The three costs the relayer fronts: FROST at the WAL price, MIST for the return leg and for gas at the SUI price. */
  function FeesUsd(walFrost: int, returnMist: int, gasMist: int, walPrice: real, suiPrice: real): real {
    walFrost as real / 1000000000.0 * walPrice
    + returnMist as real / 1000000000.0 * suiPrice
    + gasMist as real / 1000000000.0 * suiPrice
  }

  /** The same three, each with its buffers. */
  function BufferedFeesUsd(b: Buffers, walFrost: int, returnMist: int, gasMist: int, walPrice: real, suiPrice: real): real {
    walFrost as real / 1000000000.0 * walPrice * (1.0 + b.wal)
    + returnMist as real / 1000000000.0 * suiPrice * (1.0 + b.returnLeg) * (1.0 + b.crossRate)
    + gasMist as real / 1000000000.0 * suiPrice * (1.0 + b.suiGas) * (1.0 + b.crossRate)
  }

  lemma NineAndEighteen()
    ensures Pow10(9) == 1000000000 && Pow10(18) == 1000000000000000000
  {
    NineDigits();
    Pow10Splits(9, 9);
  }

  lemma OfNine(amount: int, price: real)
    ensures AmountToUsd(amount, 9, price) == amount as real / 1000000000.0 * price
  {
    NineDigits();
  }

  lemma OfOrigin(amount: int, origin: OriginToken, price: real)
    ensures AmountToUsd(amount, NativeDecimals(origin), price) == Worth(amount, origin, price)
  {
    NineAndEighteen();
  }

  // ---------- the guard ----------

  predicate PricedFor(origin: OriginToken, prices: PriceSet) {
    && (WAL in prices && prices[WAL] > 0.0) && (SUI in prices && prices[SUI] > 0.0)
    && match origin
       case OriginETH => ETH in prices && prices[ETH] > 0.0
       case OriginSOL => SOL in prices && prices[SOL] > 0.0
  }

  function OriginPrice(origin: OriginToken, prices: PriceSet): real
    requires PricedFor(origin, prices)
  {
    match origin
    case OriginETH => prices[ETH]
    case OriginSOL => prices[SOL]
  }

  /** The guard answers exactly when every price is positive and no amount is negative. */
  lemma GuardAnswersWhen(g: GuardInputs)
    ensures EvaluateBreakEven(g).Success? <==>
      && PricedFor(g.originToken, g.prices)
      && 0 <= g.escrowNative && 0 <= g.walCostFrost && 0 <= g.returnLzFeeMist && 0 <= g.suiGasMist
  {
  }

  function GuardFees(g: GuardInputs): real
    requires PricedFor(g.originToken, g.prices)
  {
    FeesUsd(g.walCostFrost, g.returnLzFeeMist, g.suiGasMist, g.prices[WAL], g.prices[SUI])
  }

  /** It weighs the escrow's worth against the three fees with the margin on top, and lets exactly a covered spend through. */
  lemma GuardWeighsTheFees(g: GuardInputs)
    requires EvaluateBreakEven(g).Success?
    ensures PricedFor(g.originToken, g.prices)
    ensures var d := EvaluateBreakEven(g).value;
            var escrow, fees := Worth(g.escrowNative, g.originToken, OriginPrice(g.originToken, g.prices)), GuardFees(g);
            && d.escrowUsd == escrow && d.costUsd == fees && d.marginUsd == escrow - fees
            && d.requiredUsd == fees * (1.0 + g.minMargin)
            && (d.proceed <==> fees * (1.0 + g.minMargin) <= escrow)
            && (d.marginRatio.Some? <==> 0.0 < fees)
            && (d.marginRatio.Some? ==> d.marginRatio.value * fees == escrow - fees)
  {
    OfOrigin(g.escrowNative, g.originToken, OriginPrice(g.originToken, g.prices));
    OfNine(g.walCostFrost, g.prices[WAL]);
    OfNine(g.returnLzFeeMist, g.prices[SUI]);
    OfNine(g.suiGasMist, g.prices[SUI]);
    var d := EvaluateBreakEven(g).value;
    if d.costUsd > 0.0 { DivMul(d.marginUsd, d.costUsd); }
  }

  lemma OneMore(amount: int, more: int, unit: real, price: real)
    requires unit > 0.0
    ensures (amount + more) as real / unit * price == amount as real / unit * price + more as real / unit * price
  {
    DivAdds(amount as real, more as real, unit);
    assert (amount + more) as real == amount as real + more as real;
    MulAdds(amount as real / unit, more as real / unit, price);
  }

  lemma DivAdds(a: real, b: real, unit: real)
    requires unit > 0.0
    ensures (a + b) / unit == a / unit + b / unit
  {
  }

  lemma MulAdds(a: real, b: real, k: real)
    ensures (a + b) * k == a * k + b * k
  {
  }

  lemma EachRaises(wal: int, ret: int, gas: int, walPrice: real, suiPrice: real, more: int)
    ensures FeesUsd(wal + more, ret, gas, walPrice, suiPrice) == FeesUsd(wal, ret, gas, walPrice, suiPrice) + more as real / 1000000000.0 * walPrice
    ensures FeesUsd(wal, ret + more, gas, walPrice, suiPrice) == FeesUsd(wal, ret, gas, walPrice, suiPrice) + more as real / 1000000000.0 * suiPrice
    ensures FeesUsd(wal, ret, gas + more, walPrice, suiPrice) == FeesUsd(wal, ret, gas, walPrice, suiPrice) + more as real / 1000000000.0 * suiPrice
    ensures FeesUsd(0, 0, 0, walPrice, suiPrice) == 0.0
  {
    OneMore(wal, more, 1000000000.0, walPrice);
    OneMore(ret, more, 1000000000.0, suiPrice);
    OneMore(gas, more, 1000000000.0, suiPrice);
  }

  predicate CostsMore(g: GuardInputs, raised: GuardInputs, byUsd: real) {
    var before, after := EvaluateBreakEven(g), EvaluateBreakEven(raised);
    before.Success? && after.Success? && after.value.costUsd == before.value.costUsd + byUsd
  }

  /** No fee is left out and none is counted twice: each raises the cost by exactly its own worth, and nothing costs nothing. */
  lemma EachFeeCounts(g: GuardInputs, more: nat)
    requires EvaluateBreakEven(g).Success?
    ensures CostsMore(g, g.(walCostFrost := g.walCostFrost + more), more as real / 1000000000.0 * g.prices[WAL])
    ensures CostsMore(g, g.(returnLzFeeMist := g.returnLzFeeMist + more), more as real / 1000000000.0 * g.prices[SUI])
    ensures CostsMore(g, g.(suiGasMist := g.suiGasMist + more), more as real / 1000000000.0 * g.prices[SUI])
    ensures EvaluateBreakEven(g.(walCostFrost := 0, returnLzFeeMist := 0, suiGasMist := 0)).value.costUsd == 0.0
  {
    EachRaises(g.walCostFrost, g.returnLzFeeMist, g.suiGasMist, g.prices[WAL], g.prices[SUI], more);
    Raised(g, g.(walCostFrost := g.walCostFrost + more), more as real / 1000000000.0 * g.prices[WAL]);
    Raised(g, g.(returnLzFeeMist := g.returnLzFeeMist + more), more as real / 1000000000.0 * g.prices[SUI]);
    Raised(g, g.(suiGasMist := g.suiGasMist + more), more as real / 1000000000.0 * g.prices[SUI]);
    FeesAt(g.(walCostFrost := 0, returnLzFeeMist := 0, suiGasMist := 0));
  }

  lemma Raised(g: GuardInputs, raised: GuardInputs, byUsd: real)
    requires EvaluateBreakEven(g).Success? && raised.escrowNative == g.escrowNative
    requires raised.originToken == g.originToken && raised.prices == g.prices
    requires 0 <= raised.walCostFrost && 0 <= raised.returnLzFeeMist && 0 <= raised.suiGasMist
    requires FeesUsd(raised.walCostFrost, raised.returnLzFeeMist, raised.suiGasMist, g.prices[WAL], g.prices[SUI])
          == FeesUsd(g.walCostFrost, g.returnLzFeeMist, g.suiGasMist, g.prices[WAL], g.prices[SUI]) + byUsd
    ensures CostsMore(g, raised, byUsd)
  {
    FeesAt(g);
    FeesAt(raised);
  }

  lemma FeesAt(g: GuardInputs)
    requires PricedFor(g.originToken, g.prices)
    requires 0 <= g.escrowNative && 0 <= g.walCostFrost && 0 <= g.returnLzFeeMist && 0 <= g.suiGasMist
    ensures EvaluateBreakEven(g).Success?
    ensures EvaluateBreakEven(g).value.costUsd == FeesUsd(g.walCostFrost, g.returnLzFeeMist, g.suiGasMist, g.prices[WAL], g.prices[SUI])
  {
    GuardWeighsTheFees(g);
  }

  /** `escrow` dollars pay `fees` dollars and the margin on top of them. */
  predicate Pays(escrow: real, fees: real, margin: real) {
    0.0 <= fees && fees * (1.0 + margin) <= escrow
  }

  /** In one piece: what the guard weighs, and when it lets the spend through. */
  lemma GuardDecides(g: GuardInputs)
    requires EvaluateBreakEven(g).Success?
    ensures PricedFor(g.originToken, g.prices)
    ensures var d := EvaluateBreakEven(g).value;
            && d.escrowUsd == Worth(g.escrowNative, g.originToken, OriginPrice(g.originToken, g.prices))
            && d.costUsd == GuardFees(g)
            && (d.proceed <==> Pays(d.escrowUsd, d.costUsd, g.minMargin))
            && (d.proceed ==> Covers(d.escrowUsd, d.costUsd, g.minMargin))
  {
    ProceedCovers(g);
    GuardWeighsTheFees(g);
  }

  // ---------- the quote ----------

  /** A quote is given exactly when every price is positive and no fee is negative. */
  lemma QuotedWhen(config: QuoteConfig, q: QuoteInputs, prices: PriceSet)
    ensures GetQuote(config, q, prices).Success? <==>
      && PricedFor(q.originToken, prices)
      && 0 <= q.walCostFrost && 0 <= q.returnLzFeeMist && 0 <= q.suiGasMist
      && 0 <= q.forwardLzFeeNative && 0 <= q.originGasNative
  {
  }

  /** The buffered fees, or the minimum charge where they fall short of it. */
  lemma QuoteCharges(config: QuoteConfig, q: QuoteInputs, prices: PriceSet)
    requires GetQuote(config, q, prices).Success?
    ensures var given := GetQuote(config, q, prices).value;
            var raw := BufferedFeesUsd(config.buffers, q.walCostFrost, q.returnLzFeeMist, q.suiGasMist, prices[WAL], prices[SUI]);
            && config.minChargeUsd <= given.bufferedEscrowUsd && raw <= given.bufferedEscrowUsd
            && given.bufferedEscrowUsd in {raw, config.minChargeUsd}
            && (given.floorApplied <==> raw < config.minChargeUsd)
            && given.serviceMarginUsd == given.bufferedEscrowUsd * config.serviceMargin
            && given.escrowUsd == given.bufferedEscrowUsd + given.serviceMarginUsd
  {
    BufferedAt(config.buffers, q.walCostFrost, q.returnLzFeeMist, q.suiGasMist, prices[WAL], prices[SUI]);
  }

  lemma BufferedAt(b: Buffers, wal: int, ret: int, gas: int, walPrice: real, suiPrice: real)
    ensures BufferedUsd(b, AmountToUsd(wal, 9, walPrice), AmountToUsd(ret, 9, suiPrice), AmountToUsd(gas, 9, suiPrice))
         == BufferedFeesUsd(b, wal, ret, gas, walPrice, suiPrice)
  {
    OfNine(wal, walPrice);
    OfNine(ret, suiPrice);
    OfNine(gas, suiPrice);
  }

  /** The native escrow is worth what is charged, up to a billionth of a token; the user's own two fees come on top of it. */
  lemma QuoteEscrow(config: QuoteConfig, q: QuoteInputs, prices: PriceSet)
    requires GetQuote(config, q, prices).Success?
    ensures PricedFor(q.originToken, prices)
    ensures var given, price := GetQuote(config, q, prices).value, OriginPrice(q.originToken, prices);
            && given.escrowUsd <= Worth(given.escrowNative, q.originToken, price) < given.escrowUsd + price / 1000000000.0
            && given.forwardNative == q.forwardLzFeeNative + q.originGasNative
            && given.totalNative == given.escrowNative + q.forwardLzFeeNative + q.originGasNative
            && given.forwardUsd == Worth(given.forwardNative, q.originToken, price)
            && given.totalUsd == given.escrowUsd + given.forwardUsd
  {
    var price := OriginPrice(q.originToken, prices);
    var given := GetQuote(config, q, prices).value;
    NativeCoversUsd(given.escrowUsd, price, NativeDecimals(q.originToken));
    NativeIsTight(given.escrowUsd, price, NativeDecimals(q.originToken));
    OfOrigin(given.escrowNative, q.originToken, price);
    OfOrigin(q.forwardLzFeeNative, q.originToken, price);
    OfOrigin(q.originGasNative, q.originToken, price);
    OneMore(q.forwardLzFeeNative, q.originGasNative, PerOrigin(q.originToken), price);
  }

  /** Rounding up takes less than one nine-digit sub-unit more than asked for. */
  lemma NativeIsTight(usd: real, price: real, decimals: nat)
    requires price > 0.0 && decimals >= 9
    ensures AmountToUsd(UsdToNative(usd, price, decimals), decimals, price) < usd + price / 1000000000.0
  {
    var sub := SubUnits(usd, price);
    CeilBounds(usd / price * 1000000000.0);
    NineDigits();
    SubUnitsToUsd(sub, decimals, price);
    TightAt(usd, price, sub as real);
  }

  lemma TightAt(usd: real, price: real, sub: real)
    requires price > 0.0 && sub < usd / price * 1000000000.0 + 1.0
    ensures sub / 1000000000.0 * price < usd + price / 1000000000.0
  {
    var units := usd / price;
    DivMul(usd, price);
    MulStrict(sub / 1000000000.0, units + 1.0 / 1000000000.0, price);
  }

  /** Whatever the fees, the escrow is worth the minimum charge with the service margin on top. */
  lemma FloorIsCharged(config: QuoteConfig, q: QuoteInputs, prices: PriceSet)
    requires GetQuote(config, q, prices).Success? && 0.0 <= 1.0 + config.serviceMargin
    ensures PricedFor(q.originToken, prices)
    ensures config.minChargeUsd * (1.0 + config.serviceMargin)
         <= Worth(GetQuote(config, q, prices).value.escrowNative, q.originToken, OriginPrice(q.originToken, prices))
  {
    QuoteCharges(config, q, prices);
    QuoteEscrow(config, q, prices);
    Floored(config.minChargeUsd, GetQuote(config, q, prices).value.bufferedEscrowUsd, config.serviceMargin);
  }

  lemma Floored(least: real, charged: real, margin: real)
    requires least <= charged && 0.0 <= 1.0 + margin
    ensures least * (1.0 + margin) <= charged + charged * margin
  {
    MulMono(least, charged, 1.0 + margin);
  }
}
