/** Unit conversion, the quote engine and the break-even guard, with USD amounts as reals. */
module Pricing {
  import opened Wrappers

  datatype Token = WAL | SUI | ETH | SOL

  datatype OriginToken = OriginETH | OriginSOL

  /** Resolved USD prices; a token without a price is absent. */
  type PriceSet = map<Token, real>

  const FROST_DECIMALS := 9
  const MIST_DECIMALS := 9

  function NativeDecimals(token: OriginToken): nat {
    match token
    case OriginETH => 18
    case OriginSOL => 9
  }

  function AsToken(token: OriginToken): Token {
    match token
    case OriginETH => ETH
    case OriginSOL => SOL
  }

  // ---------- pricing-math ----------

  function Pow10(n: nat): (p: int)
    ensures 1 <= p
  {
    if n == 0 then 1 else 10 * Pow10(n - 1)
  }

  function Ceil(x: real): int {
    if x.Floor as real == x then x.Floor else x.Floor + 1
  }

  /** Smallest units as whole tokens. */
  function ToUnits(amount: int, decimals: nat): real {
    amount as real / Pow10(decimals) as real
  }

  function Usd(units: real, priceUsd: real): real {
    units * priceUsd
  }

  function AmountToUsd(amount: int, decimals: nat, priceUsd: real): real {
    Usd(ToUnits(amount, decimals), priceUsd)
  }

  function WithMargin(amountUsd: real, ratio: real): real {
    amountUsd * (1.0 + ratio)
  }

  /** USD to the smallest unit through 9-digit sub-units; below 9 decimals the last step truncates. */
  function UsdToNative(usd: real, priceUsd: real, decimals: nat): int
    requires priceUsd > 0.0
  {
    if decimals >= 9 then SubUnits(usd, priceUsd) * Pow10(decimals - 9)
    else Truncated(SubUnits(usd, priceUsd), Pow10(9 - decimals))
  }

  /** The amount in nine-digit sub-units of the token, rounded up. */
  function SubUnits(usd: real, priceUsd: real): int
    requires priceUsd > 0.0
  {
    Ceil(usd / priceUsd * 1000000000.0)
  }

  /** BigInt division: truncates toward zero. */
  function Truncated(sub: int, subUnitsPerNative: int): int
    requires 1 <= subUnitsPerNative
  {
    if sub >= 0 then sub / subUnitsPerNative else -((-sub) / subUnitsPerNative)
  }

  // ---------- quote engine ----------

  datatype Buffers = Buffers(returnLeg: real, suiGas: real, wal: real, crossRate: real)

  datatype QuoteConfig = QuoteConfig(buffers: Buffers, serviceMargin: real, minChargeUsd: real)

  datatype QuoteInputs = QuoteInputs(
    originToken: OriginToken, walCostFrost: int, returnLzFeeMist: int, suiGasMist: int,
    forwardLzFeeNative: int, originGasNative: int)

  datatype Quote = Quote(
    escrowNative: int, forwardNative: int, totalNative: int,
    bufferedEscrowUsd: real, serviceMarginUsd: real, escrowUsd: real, forwardUsd: real, totalUsd: real,
    floorApplied: bool)

  predicate Priced(prices: PriceSet, token: Token) {
    token in prices && prices[token] > 0.0
  }

  predicate QuoteInputsOk(inputs: QuoteInputs, prices: PriceSet) {
    && 0 <= inputs.walCostFrost && 0 <= inputs.returnLzFeeMist && 0 <= inputs.suiGasMist
    && 0 <= inputs.forwardLzFeeNative && 0 <= inputs.originGasNative
    && Priced(prices, AsToken(inputs.originToken)) && Priced(prices, WAL) && Priced(prices, SUI)
  }

  function BufferedUsd(b: Buffers, walUsd: real, returnUsd: real, suiGasUsd: real): real {
    walUsd * (1.0 + b.wal)
    + returnUsd * (1.0 + b.returnLeg) * (1.0 + b.crossRate)
    + suiGasUsd * (1.0 + b.suiGas) * (1.0 + b.crossRate)
  }

  /** The quote's arithmetic at three resolved prices. */
  function QuoteAt(config: QuoteConfig, inputs: QuoteInputs, originPrice: real, walPrice: real, suiPrice: real): Quote
    requires originPrice > 0.0
  {
    var decimals := NativeDecimals(inputs.originToken);
    var raw := BufferedUsd(config.buffers,
                           AmountToUsd(inputs.walCostFrost, FROST_DECIMALS, walPrice),
                           AmountToUsd(inputs.returnLzFeeMist, MIST_DECIMALS, suiPrice),
                           AmountToUsd(inputs.suiGasMist, MIST_DECIMALS, suiPrice));
    var floorApplied := raw < config.minChargeUsd;
    var buffered := if floorApplied then config.minChargeUsd else raw;
    var margin := buffered * config.serviceMargin;
    var escrowUsd := buffered + margin;
    var forwardUsd := AmountToUsd(inputs.forwardLzFeeNative, decimals, originPrice)
                      + AmountToUsd(inputs.originGasNative, decimals, originPrice);
    var escrowNative := UsdToNative(escrowUsd, originPrice, decimals);
    var forwardNative := inputs.forwardLzFeeNative + inputs.originGasNative;
    Quote(escrowNative, forwardNative, escrowNative + forwardNative,
          buffered, margin, escrowUsd, forwardUsd, escrowUsd + forwardUsd, floorApplied)
  }

  function GetQuote(config: QuoteConfig, inputs: QuoteInputs, prices: PriceSet): Result<Quote> {
    if !QuoteInputsOk(inputs, prices) then Failure("negative fee or missing price")
    else Success(QuoteAt(config, inputs, prices[AsToken(inputs.originToken)], prices[WAL], prices[SUI]))
  }

  // ---------- break-even guard ----------

  datatype GuardInputs = GuardInputs(
    escrowNative: int, originToken: OriginToken, walCostFrost: int, returnLzFeeMist: int, suiGasMist: int,
    minMargin: real, prices: PriceSet)

  datatype Decision = Decision(
    proceed: bool, escrowUsd: real, costUsd: real, requiredUsd: real, marginUsd: real, marginRatio: Option<real>)

  /** The guard's arithmetic at three resolved prices. */
  function DecisionAt(inputs: GuardInputs, originPrice: real, walPrice: real, suiPrice: real): Decision {
    var escrowUsd := AmountToUsd(inputs.escrowNative, NativeDecimals(inputs.originToken), originPrice);
    var costUsd := AmountToUsd(inputs.walCostFrost, FROST_DECIMALS, walPrice)
                   + AmountToUsd(inputs.returnLzFeeMist, MIST_DECIMALS, suiPrice)
                   + AmountToUsd(inputs.suiGasMist, MIST_DECIMALS, suiPrice);
    var requiredUsd := WithMargin(costUsd, inputs.minMargin);
    var marginUsd := escrowUsd - costUsd;
    Decision(escrowUsd >= requiredUsd, escrowUsd, costUsd, requiredUsd, marginUsd,
             if costUsd > 0.0 then Some(marginUsd / costUsd) else None)
  }

  function EvaluateBreakEven(inputs: GuardInputs): Result<Decision> {
    var origin := AsToken(inputs.originToken);
    if !(Priced(inputs.prices, WAL) && Priced(inputs.prices, SUI) && Priced(inputs.prices, origin)) then
      Failure("missing or non-positive price")
    else if inputs.escrowNative < 0 || inputs.walCostFrost < 0 || inputs.returnLzFeeMist < 0 || inputs.suiGasMist < 0 then
      Failure("negative amount")
    else
      Success(DecisionAt(inputs, inputs.prices[origin], inputs.prices[WAL], inputs.prices[SUI]))
  }

  // ---------- conversions ----------

  lemma MulMono(a: real, b: real, k: real)
    requires a <= b && 0.0 <= k
    ensures a * k <= b * k
  {
    assert 0.0 <= (b - a) * k;
  }

  lemma MulPositive(a: real, b: real)
    requires 0.0 <= a && 0.0 <= b
    ensures 0.0 <= a * b
  {
  }

  lemma CeilBounds(x: real)
    ensures x <= Ceil(x) as real < x + 1.0
  {
  }

  lemma Pow10Splits(a: nat, b: nat)
    ensures Pow10(a + b) == Pow10(a) * Pow10(b)
  {
    if a != 0 {
      Pow10Splits(a - 1, b);
      assert Pow10(a + b) == 10 * (Pow10(a - 1) * Pow10(b));
    }
  }

  lemma DivMul(a: real, b: real)
    requires b != 0.0
    ensures a / b * b == a
  {
  }

  lemma MulAssoc(a: real, b: real, c: real)
    ensures a * b * c == a * (b * c)
    ensures a * b * c == a * c * b
  {
  }

  /** sub nine-digit sub-units, scaled to `decimals`, are worth sub / 10^9 whole units. */
  lemma SubUnitsToUsd(sub: int, decimals: nat, price: real)
    requires decimals >= 9
    ensures AmountToUsd(sub * Pow10(decimals - 9), decimals, price) == sub as real / Pow10(9) as real * price
  {
    var k, n := Pow10(decimals - 9) as real, Pow10(9) as real;
    Pow10Splits(decimals - 9, 9);
    assert (sub * Pow10(decimals - 9)) as real == sub as real * k;
    assert Pow10(decimals) as real == k * n;
    CancelFactor(sub as real, k, n);
  }

  lemma CancelFactor(a: real, k: real, n: real)
    requires 0.0 < k && 0.0 < n
    ensures k * n != 0.0 && a * k / (k * n) == a / n
  {
    var q := a / n;
    DivMul(a, n);
    assert q * n == a;
    MulAssoc(q, n, k);
    assert k * n > 0.0;
    assert q * (k * n) == a * k;
    DivUnique(a * k, k * n, q);
  }

  lemma DivUnique(a: real, b: real, q: real)
    requires b != 0.0 && q * b == a
    ensures a / b == q
  {
  }

  /** The charge is rounded up for every token with at least nine decimals. */
  lemma NativeCoversUsd(usd: real, price: real, decimals: nat)
    requires price > 0.0 && decimals >= 9
    ensures AmountToUsd(UsdToNative(usd, price, decimals), decimals, price) >= usd
  {
    var n := 1000000000.0;
    var sub := SubUnits(usd, price);
    CeilBounds(usd / price * n);
    NineDigits();
    SubUnitsToUsd(sub, decimals, price);
    DivMul(usd, price);
    ScaleBack(usd / price, n, sub as real, price);
  }

  lemma NineDigits()
    ensures Pow10(9) == 1000000000
  {
    assert Pow10(3) == 1000;
    Pow10Splits(3, 3);
    Pow10Splits(3, 6);
  }

  lemma ScaleBack(units: real, n: real, sub: real, price: real)
    requires 0.0 < n && 0.0 < price && units * n <= sub
    ensures units * price <= sub / n * price
  {
    DivMul(sub, n);
    if sub / n < units {
      MulStrict(sub / n, units, n);
      assert false;
    }
    MulMono(units, sub / n, price);
  }

  lemma MulStrict(a: real, b: real, k: real)
    requires a < b && 0.0 < k
    ensures a * k < b * k
  {
    assert 0.0 < (b - a) * k;
  }

  lemma NonNegativeFactor(a: real, k: real)
    requires 0.0 < k && 0.0 <= a * k
    ensures 0.0 <= a
  {
    if a < 0.0 { MulStrict(a, 0.0, k); }
  }

  /** Whole units and their smallest-unit forms: d * q = n, so covering compares q * native with sub. */
  lemma CoversScaled(units: real, d: real, q: int, n: real, native: int, sub: int, price: real)
    requires 0.0 < d && 0.0 < n && 1 <= q && n == d * q as real && 0.0 < price
    requires units * n <= sub as real < units * n + 1.0 && q * native <= sub
    ensures native as real / d * price >= units * price <==> q * native == sub
  {
    var whole := native as real / d;
    ScaledUnits(native, d, q, n);
    CompareScaled(whole, units, n, price);
  }

  lemma ScaledUnits(native: int, d: real, q: int, n: real)
    requires 0.0 < d && n == d * q as real
    ensures native as real / d * n == (q * native) as real
  {
    var whole := native as real / d;
    DivMul(native as real, d);
    MulAssoc(whole, d, q as real);
    assert whole * d * q as real == native as real * q as real;
    assert native as real * q as real == (q * native) as real;
  }

  lemma CompareScaled(a: real, b: real, n: real, k: real)
    requires 0.0 < n && 0.0 < k
    ensures a * k >= b * k <==> a * n >= b * n
  {
    if a >= b {
      MulMono(b, a, k);
      MulMono(b, a, n);
    } else {
      MulStrict(a, b, k);
      MulStrict(a, b, n);
    }
  }

  lemma RoundedUp(usd: real, price: real) returns (units: real, sub: int)
    requires price > 0.0 && 0.0 <= usd
    ensures sub == SubUnits(usd, price) && usd == units * price
    ensures units * 1000000000.0 <= sub as real < units * 1000000000.0 + 1.0
    ensures 0 <= sub
  {
    units := usd / price;
    CeilBounds(units * 1000000000.0);
    sub := SubUnits(usd, price);
    UnitsAtPrice(usd, price, 1000000000.0);
  }

  lemma TruncatedCovers(units: real, usd: real, price: real, d: int, q: int, sub: int, native: int)
    requires price > 0.0 && usd == units * price && 1 <= d && 1 <= q && 1000000000 == d * q
    requires units * 1000000000.0 <= sub as real < units * 1000000000.0 + 1.0
    requires q * native <= sub && (q * native == sub <==> sub % q == 0)
    ensures native as real / d as real * price >= usd <==> sub % q == 0
  {
    CoversScaled(units, d as real, q, 1000000000.0, native, sub, price);
  }

  /** Below nine decimals the result covers the amount exactly when the sub-units divide evenly. */
  lemma NativeCoversBelowNine(usd: real, price: real, decimals: nat)
    requires price > 0.0 && decimals < 9 && 0.0 <= usd
    ensures AmountToUsd(UsdToNative(usd, price, decimals), decimals, price) >= usd
       <==> SubUnits(usd, price) % Pow10(9 - decimals) == 0
  {
    var units, sub := RoundedUp(usd, price);
    var d, q := Pow10(decimals), Pow10(9 - decimals);
    PowersOfNine(decimals);
    TruncatedQuotient(sub, q);
    TruncatedCovers(units, usd, price, d, q, sub, Truncated(sub, q));
  }

  lemma PowersOfNine(decimals: nat)
    requires decimals < 9
    ensures Pow10(decimals) * Pow10(9 - decimals) == 1000000000
  {
    Pow10Splits(decimals, 9 - decimals);
    NineDigits();
  }

  lemma TruncatedQuotient(sub: int, q: int)
    requires 0 <= sub && 1 <= q
    ensures q * Truncated(sub, q) <= sub && (q * Truncated(sub, q) == sub <==> sub % q == 0)
  {
    Quotient(sub, q);
  }

  lemma UnitsAtPrice(usd: real, price: real, n: real)
    requires 0.0 <= usd && 0.0 < price && 0.0 <= n
    ensures usd / price * price == usd && 0.0 <= usd / price * n
  {
    var units := usd / price;
    DivMul(usd, price);
    NonNegativeFactor(units, price);
    MulPositive(units, n);
  }

  lemma Quotient(a: int, q: int)
    requires 1 <= q
    ensures q * (a / q) <= a
    ensures q * (a / q) == a <==> a % q == 0
  {
  }

  /** A tenth of a millionth of a dollar at six decimals becomes zero units: rounded down, not up. */
  lemma TruncatesBelowNine()
    ensures UsdToNative(0.0000001, 1.0, 6) == 0
    ensures AmountToUsd(UsdToNative(0.0000001, 1.0, 6), 6, 1.0) < 0.0000001
  {
    assert Pow10(3) == 1000;
    assert SubUnits(0.0000001, 1.0) == 100;
  }

  // ---------- the quote survives price moves ----------

  /** later/now grew, relative to the origin price, by a factor of at most `factor`. */
  predicate RoseAtMost(now: real, later: real, originNow: real, originLater: real, factor: real) {
    later * originNow <= now * factor * originLater
  }

  function MinReal(a: real, b: real): real {
    if a < b then a else b
  }

  predicate RatesWithinBuffers(
    b: Buffers, walNow: real, suiNow: real, originNow: real, walLater: real, suiLater: real, originLater: real)
  {
    && RoseAtMost(walNow, walLater, originNow, originLater, 1.0 + b.wal)
    && RoseAtMost(suiNow, suiLater, originNow, originLater,
                  (1.0 + MinReal(b.returnLeg, b.suiGas)) * (1.0 + b.crossRate))
  }

  lemma ScaledTerm(amount: real, now: real, later: real, originNow: real, originLater: real, factor: real)
    requires 0.0 <= amount && RoseAtMost(now, later, originNow, originLater, factor)
    ensures amount * later * originNow <= amount * now * factor * originLater
  {
    MulMono(later * originNow, now * factor * originLater, amount);
    assert (later * originNow) * amount == amount * later * originNow;
    ReorderFour(now, factor, originLater, amount);
  }

  lemma ReorderFour(a: real, b: real, c: real, k: real)
    ensures a * b * c * k == k * a * b * c
  {
    assert a * b * c * k == (a * b) * (c * k);
    assert k * a * b * c == (a * b) * (c * k);
  }

  lemma FactorMono(value: real, low: real, high: real, cross: real)
    requires 0.0 <= value && low <= high && 0.0 <= cross
    ensures value * (low * cross) <= value * high * cross
  {
    MulMono(low, high, value);
    MulMono(low * value, high * value, cross);
    MulAssoc(value, low, cross);
  }

  /** Cost at later prices, scaled by the origin price at quote time, against the buffered quote. */
  lemma BufferedDominates(
    b: Buffers, wal: real, ret: real, gas: real,
    walNow: real, suiNow: real, originNow: real, walLater: real, suiLater: real, originLater: real)
    requires 0.0 <= wal && 0.0 <= ret && 0.0 <= gas
    requires 0.0 < walNow && 0.0 < suiNow && 0.0 < originNow && 0.0 < originLater
    requires 0.0 <= 1.0 + b.crossRate
    requires RatesWithinBuffers(b, walNow, suiNow, originNow, walLater, suiLater, originLater)
    ensures (wal * walLater + ret * suiLater + gas * suiLater) * originNow
         <= BufferedUsd(b, wal * walNow, ret * suiNow, gas * suiNow) * originLater
  {
    DominatesAt(wal, ret, gas, walNow, suiNow, originNow, walLater, suiLater, originLater,
                1.0 + b.wal, 1.0 + b.returnLeg, 1.0 + b.suiGas, 1.0 + MinReal(b.returnLeg, b.suiGas), 1.0 + b.crossRate);
  }

  lemma DominatesAt(
    wal: real, ret: real, gas: real,
    walNow: real, suiNow: real, originNow: real, walLater: real, suiLater: real, originLater: real,
    w: real, r: real, g: real, m: real, x: real)
    requires 0.0 <= wal && 0.0 <= ret && 0.0 <= gas && 0.0 < suiNow && 0.0 < originLater && m <= r && m <= g && 0.0 <= x
    requires RoseAtMost(walNow, walLater, originNow, originLater, w)
    requires RoseAtMost(suiNow, suiLater, originNow, originLater, m * x)
    ensures (wal * walLater + ret * suiLater + gas * suiLater) * originNow
         <= (wal * walNow * w + ret * suiNow * r * x + gas * suiNow * g * x) * originLater
  {
    ScaledTerm(wal, walNow, walLater, originNow, originLater, w);
    BufferedTerm(ret, suiNow, suiLater, originNow, originLater, m, r, x);
    BufferedTerm(gas, suiNow, suiLater, originNow, originLater, m, g, x);
    SumOfProducts(wal, walLater, ret, suiLater, gas, suiLater, originNow);
    SumOfBuffered(wal, walNow, w, ret, gas, suiNow, r, g, x, originLater);
  }

  /** A SUI cost: the allowed rise m * x is at most its own buffer times the cross-rate buffer. */
  lemma BufferedTerm(amount: real, now: real, later: real, originNow: real, originLater: real, m: real, buffer: real, x: real)
    requires 0.0 <= amount && 0.0 < now && 0.0 < originLater && m <= buffer && 0.0 <= x
    requires RoseAtMost(now, later, originNow, originLater, m * x)
    ensures amount * later * originNow <= amount * now * buffer * x * originLater
  {
    ScaledTerm(amount, now, later, originNow, originLater, m * x);
    MulPositive(amount, now);
    FactorMono(amount * now, m, buffer, x);
    MulMono(amount * now * (m * x), amount * now * buffer * x, originLater);
  }

  lemma SumOfProducts(a: real, p: real, b: real, q: real, c: real, r: real, k: real)
    ensures (a * p + b * q + c * r) * k == a * p * k + b * q * k + c * r * k
  {
  }

  lemma SumOfBuffered(a: real, p: real, w: real, b: real, c: real, q: real, r: real, g: real, x: real, k: real)
    ensures (a * p * w + b * q * r * x + c * q * g * x) * k == a * p * w * k + b * q * r * x * k + c * q * g * x * k
  {
  }

  /** From the scaled inequality to the guard's: escrow worth covered * later / now pays cost with its margin. */
  lemma EscrowPays(cost: real, buffered: real, now: real, later: real, service: real, guard: real, escrowNow: real, escrowLater: real)
    requires 0.0 <= cost && 0.0 < now && 0.0 < later && guard <= service && 0.0 <= 1.0 + service
    requires cost * now <= buffered * later
    requires buffered * (1.0 + service) <= escrowNow
    requires escrowLater * now == escrowNow * later
    ensures escrowLater >= cost * (1.0 + guard)
  {
    MulMono(cost * now, buffered * later, 1.0 + service);
    MulMono(buffered * (1.0 + service), escrowNow, later);
    MulAssoc(buffered, later, 1.0 + service);
    MulAssoc(cost, now, 1.0 + service);
    assert cost * (1.0 + service) * now <= escrowLater * now;
    if escrowLater < cost * (1.0 + service) {
      MulStrict(escrowLater, cost * (1.0 + service), now);
      assert false;
    }
    MulMono(1.0 + guard, 1.0 + service, cost);
  }

  lemma UnitsNonNegative(amount: int, decimals: nat)
    requires 0 <= amount
    ensures 0.0 <= ToUnits(amount, decimals)
  {
    var units, p := ToUnits(amount, decimals), Pow10(decimals) as real;
    DivMul(amount as real, p);
    NonNegativeFactor(units, p);
  }

  predicate PriceMoveWithinBuffers(b: Buffers, origin: Token, now: PriceSet, later: PriceSet)
    requires Priced(now, WAL) && Priced(now, SUI) && Priced(now, origin)
    requires Priced(later, WAL) && Priced(later, SUI) && Priced(later, origin)
  {
    RatesWithinBuffers(b, now[WAL], now[SUI], now[origin], later[WAL], later[SUI], later[origin])
  }

  /** The quoted escrow, in units at the quote-time price, covers the buffered cost with its margin. */
  lemma QuoteCovers(config: QuoteConfig, inputs: QuoteInputs, origin: real, wal: real, sui: real) returns (q: Quote, held: real)
    requires origin > 0.0
    ensures q == QuoteAt(config, inputs, origin, wal, sui)
    ensures BufferedUsd(config.buffers, Usd(ToUnits(inputs.walCostFrost, 9), wal), Usd(ToUnits(inputs.returnLzFeeMist, 9), sui),
                        Usd(ToUnits(inputs.suiGasMist, 9), sui)) <= q.bufferedEscrowUsd
    ensures held == ToUnits(q.escrowNative, NativeDecimals(inputs.originToken))
    ensures q.escrowUsd == WithMargin(q.bufferedEscrowUsd, config.serviceMargin) <= Usd(held, origin)
    ensures q.escrowNative == UsdToNative(q.escrowUsd, origin, NativeDecimals(inputs.originToken))
  {
    q := QuoteAt(config, inputs, origin, wal, sui);
    held := ToUnits(q.escrowNative, NativeDecimals(inputs.originToken));
    NativeCoversUsd(q.escrowUsd, origin, NativeDecimals(inputs.originToken));
  }

  lemma NativeNonNegative(usd: real, price: real, decimals: nat)
    requires 0.0 <= usd && 0.0 < price && decimals >= 9
    ensures 0 <= UsdToNative(usd, price, decimals)
  {
    var units := usd / price;
    DivMul(usd, price);
    NonNegativeFactor(units, price);
    MulPositive(units, Pow10(9) as real);
    CeilBounds(units * Pow10(9) as real);
  }

  lemma ScaledNonNegative(cost: real, now: real, raw: real, later: real)
    requires 0.0 <= cost && 0.0 < now && 0.0 < later && cost * now <= raw * later
    ensures 0.0 <= raw
  {
    MulPositive(cost, now);
    if raw < 0.0 { MulStrict(raw, 0.0, later); }
  }

  /** The argument itself, on the numbers: units held at quote time pay the later cost with the guard's margin. */
  lemma HeldUnitsPay(
    b: Buffers, wal: real, ret: real, gas: real, held: real, buffered: real, service: real, guard: real,
    walNow: real, suiNow: real, originNow: real, walLater: real, suiLater: real, originLater: real)
    requires 0.0 <= wal && 0.0 <= ret && 0.0 <= gas
    requires 0.0 < walNow && 0.0 < suiNow && 0.0 < originNow && 0.0 < walLater && 0.0 < suiLater && 0.0 < originLater
    requires 0.0 <= 1.0 + b.crossRate && guard <= service && 0.0 <= 1.0 + service
    requires RatesWithinBuffers(b, walNow, suiNow, originNow, walLater, suiLater, originLater)
    requires BufferedUsd(b, Usd(wal, walNow), Usd(ret, suiNow), Usd(gas, suiNow)) <= buffered
    requires WithMargin(buffered, service) <= Usd(held, originNow)
    ensures Usd(held, originLater) >= WithMargin(Usd(wal, walLater) + Usd(ret, suiLater) + Usd(gas, suiLater), guard)
    ensures 0.0 <= WithMargin(buffered, service)
  {
    MulPositive(wal, walLater);
    MulPositive(ret, suiLater);
    MulPositive(gas, suiLater);
    var cost := wal * walLater + ret * suiLater + gas * suiLater;
    var raw := BufferedUsd(b, wal * walNow, ret * suiNow, gas * suiNow);
    BufferedDominates(b, wal, ret, gas, walNow, suiNow, originNow, walLater, suiLater, originLater);
    ScaledNonNegative(cost, originNow, raw, originLater);
    MulPositive(buffered, 1.0 + service);
    MulMono(raw, buffered, originLater);
    MulAssoc(held, originNow, originLater);
    EscrowPays(cost, buffered, originNow, originLater, service, guard, held * originNow, held * originLater);
  }

  /** The guard's inputs for a quoted escrow and the quote's own costs. */
  function AtGuard(escrow: int, inputs: QuoteInputs, margin: real, prices: PriceSet): GuardInputs {
    GuardInputs(escrow, inputs.originToken, inputs.walCostFrost, inputs.returnLzFeeMist, inputs.suiGasMist, margin, prices)
  }

  lemma QuotePays(
    config: QuoteConfig, inputs: QuoteInputs, guardMargin: real,
    walNow: real, suiNow: real, originNow: real, walLater: real, suiLater: real, originLater: real)
    returns (q: Quote, held: real)
    requires 0.0 < walNow && 0.0 < suiNow && 0.0 < originNow && 0.0 < walLater && 0.0 < suiLater && 0.0 < originLater
    requires 0 <= inputs.walCostFrost && 0 <= inputs.returnLzFeeMist && 0 <= inputs.suiGasMist
    requires RatesWithinBuffers(config.buffers, walNow, suiNow, originNow, walLater, suiLater, originLater)
    requires guardMargin <= config.serviceMargin
    requires 0.0 <= 1.0 + config.serviceMargin && 0.0 <= 1.0 + config.buffers.crossRate
    ensures q == QuoteAt(config, inputs, originNow, walNow, suiNow) && 0.0 <= q.escrowUsd
    ensures q.escrowNative == UsdToNative(q.escrowUsd, originNow, NativeDecimals(inputs.originToken))
    ensures held == ToUnits(q.escrowNative, NativeDecimals(inputs.originToken))
    ensures Usd(held, originLater)
         >= WithMargin(Usd(ToUnits(inputs.walCostFrost, 9), walLater) + Usd(ToUnits(inputs.returnLzFeeMist, 9), suiLater)
                       + Usd(ToUnits(inputs.suiGasMist, 9), suiLater), guardMargin)
  {
    q, held := QuoteCovers(config, inputs, originNow, walNow, suiNow);
    UnitsNonNegative(inputs.walCostFrost, 9);
    UnitsNonNegative(inputs.returnLzFeeMist, 9);
    UnitsNonNegative(inputs.suiGasMist, 9);
    HeldUnitsPay(config.buffers, ToUnits(inputs.walCostFrost, 9), ToUnits(inputs.returnLzFeeMist, 9),
                 ToUnits(inputs.suiGasMist, 9),
                 held, q.bufferedEscrowUsd, config.serviceMargin, guardMargin,
                 walNow, suiNow, originNow, walLater, suiLater, originLater);
  }

  lemma QuotePassesAtRates(
    config: QuoteConfig, inputs: QuoteInputs, guardMargin: real, later: PriceSet,
    walNow: real, suiNow: real, originNow: real, walLater: real, suiLater: real, originLater: real)
    requires 0.0 < walNow && 0.0 < suiNow && 0.0 < originNow && 0.0 < walLater && 0.0 < suiLater && 0.0 < originLater
    requires 0 <= inputs.walCostFrost && 0 <= inputs.returnLzFeeMist && 0 <= inputs.suiGasMist
    requires RatesWithinBuffers(config.buffers, walNow, suiNow, originNow, walLater, suiLater, originLater)
    requires guardMargin <= config.serviceMargin
    requires 0.0 <= 1.0 + config.serviceMargin && 0.0 <= 1.0 + config.buffers.crossRate
    ensures var escrow := QuoteAt(config, inputs, originNow, walNow, suiNow).escrowNative;
            0 <= escrow && DecisionAt(AtGuard(escrow, inputs, guardMargin, later), originLater, walLater, suiLater).proceed
  {
    var q, held := QuotePays(config, inputs, guardMargin, walNow, suiNow, originNow, walLater, suiLater, originLater);
    NativeNonNegative(q.escrowUsd, originNow, NativeDecimals(inputs.originToken));
  }

  /** Quote and guard agree: the quoted escrow passes the guard at any later prices within the buffers. */
  lemma QuoteSurvivesPriceMoves(config: QuoteConfig, inputs: QuoteInputs, now: PriceSet, later: PriceSet, guardMargin: real)
    requires GetQuote(config, inputs, now).Success?
    requires Priced(later, WAL) && Priced(later, SUI) && Priced(later, AsToken(inputs.originToken))
    requires PriceMoveWithinBuffers(config.buffers, AsToken(inputs.originToken), now, later)
    requires guardMargin <= config.serviceMargin
    requires 0.0 <= 1.0 + config.serviceMargin && 0.0 <= 1.0 + config.buffers.crossRate
    ensures var escrow := GetQuote(config, inputs, now).value.escrowNative;
            var d := EvaluateBreakEven(AtGuard(escrow, inputs, guardMargin, later));
            d.Success? && d.value.proceed
  {
    var origin := AsToken(inputs.originToken);
    QuotePassesAtRates(config, inputs, guardMargin, later,
                       now[WAL], now[SUI], now[origin], later[WAL], later[SUI], later[origin]);
  }

  // ---------- what a guarded spend nets ----------

  /** An escrow worth `collected` covers `spent` with its margin: what the guard demands before a spend. */
  predicate Covers(collected: real, spent: real, margin: real) {
    WithMargin(spent, margin) <= collected && 0.0 <= spent
  }

  /** The guard lets a spend through exactly when the escrow covers the cost, and every cost is non-negative. */
  lemma ProceedCovers(inputs: GuardInputs)
    requires EvaluateBreakEven(inputs).Success?
    ensures var d := EvaluateBreakEven(inputs).value;
            d.proceed <==> Covers(d.escrowUsd, d.costUsd, inputs.minMargin)
  {
    var origin := AsToken(inputs.originToken);
    UnitsNonNegative(inputs.walCostFrost, 9);
    UnitsNonNegative(inputs.returnLzFeeMist, 9);
    UnitsNonNegative(inputs.suiGasMist, 9);
    MulPositive(ToUnits(inputs.walCostFrost, 9), inputs.prices[WAL]);
    MulPositive(ToUnits(inputs.returnLzFeeMist, 9), inputs.prices[SUI]);
    MulPositive(ToUnits(inputs.suiGasMist, 9), inputs.prices[SUI]);
  }

  lemma CoveredNetsMargin(collected: real, spent: real, margin: real)
    requires Covers(collected, spent, margin)
    ensures collected - spent >= margin * spent
    ensures 0.0 <= margin ==> collected - spent >= 0.0
  {
    assert WithMargin(spent, margin) == spent + margin * spent;
    if 0.0 <= margin { MulPositive(margin, spent); }
  }
}
