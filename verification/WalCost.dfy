/** The Walrus storage-cost calculator: RedStuff-encoded length, billed units and the FROST charge. */
module WalCost {
  import opened Wrappers

  datatype EncodingType = RS2 | RedStuff

  datatype SystemState = SystemState(nShards: int, storagePrice: int, writePrice: int, encoding: EncodingType)

  datatype Breakdown = Breakdown(encodedSize: int, storageUnits: int, storageCost: int, writeCost: int, total: int)

  const DIGEST_LEN := 32
  const BLOB_ID_LEN := 32
  const BYTES_PER_UNIT_SIZE := 1024 * 1024

  function MaxFaulty(nShards: int): int
    requires 1 <= nShards
  {
    (nShards - 1) / 3
  }

  function SafetyLimit(nShards: int, encoding: EncodingType): int
    requires 1 <= nShards
  {
    match encoding
    case RS2 => 0
    case RedStuff => if MaxFaulty(nShards) / 5 < 5 then MaxFaulty(nShards) / 5 else 5
  }

  function PrimarySymbols(nShards: int, encoding: EncodingType): int
    requires 1 <= nShards
  {
    nShards - MaxFaulty(nShards) - MaxFaulty(nShards) - SafetyLimit(nShards, encoding)
  }

  function SecondarySymbols(nShards: int, encoding: EncodingType): int
    requires 1 <= nShards
  {
    nShards - MaxFaulty(nShards) - SafetyLimit(nShards, encoding)
  }

  lemma SymbolsArePositive(nShards: int, encoding: EncodingType)
    requires 1 <= nShards
    ensures 1 <= PrimarySymbols(nShards, encoding) <= SecondarySymbols(nShards, encoding)
    ensures 1 <= PrimarySymbols(nShards, encoding) * SecondarySymbols(nShards, encoding)
  {
    var p, s := PrimarySymbols(nShards, encoding), SecondarySymbols(nShards, encoding);
    assert 1 <= p <= s;
    assert 1 <= p * s by { MulMonotone(1, p, s); }
  }

  lemma MulMonotone(a: int, b: int, k: int)
    requires a <= b && 0 <= k
    ensures a * k <= b * k
  {
    assert 0 <= (b - a) * k;
  }

  function AtLeastOne(length: int): int {
    if length < 1 then 1 else length
  }

  /** Symbols a source block of `capacity` symbols needs per byte, rounded to even for RS2. */
  function SymbolSize(length: int, capacity: int, encoding: EncodingType): int
    requires 1 <= capacity
  {
    var size := (AtLeastOne(length) - 1) / capacity + 1;
    if encoding == RS2 && size % 2 == 1 then size + 1 else size
  }

  function SliverSize(length: int, nShards: int, encoding: EncodingType): int
    requires 1 <= nShards
  {
    var p, s := PrimarySymbols(nShards, encoding), SecondarySymbols(nShards, encoding);
    SymbolsArePositive(nShards, encoding);
    (p + s) * SymbolSize(length, p * s, encoding) * nShards
  }

  function EncodedLength(length: int, nShards: int, encoding: EncodingType): int
    requires 1 <= nShards
  {
    nShards * (nShards * DIGEST_LEN * 2 + BLOB_ID_LEN) + SliverSize(length, nShards, encoding)
  }

  function StorageUnits(encodedSize: int): int {
    (encodedSize + BYTES_PER_UNIT_SIZE - 1) / BYTES_PER_UNIT_SIZE
  }

  function ComputeWalCost(size: int, epochs: int, state: SystemState): Result<Breakdown> {
    if size < 0 then Failure("invalid blob size")
    else if epochs < 1 then Failure("invalid epochs")
    else if state.nShards < 1 then Failure("invalid shard count")
    else if state.storagePrice < 0 then Failure("invalid storage price")
    else if state.writePrice < 0 then Failure("invalid write price")
    else
      var encoded := EncodedLength(size, state.nShards, state.encoding);
      var units := StorageUnits(encoded);
      var storage := units * state.storagePrice * epochs;
      var write := units * state.writePrice;
      Success(Breakdown(encoded, units, storage, write, storage + write))
  }

  // ---------- the symbols hold the blob, and no smaller symbol would ----------

  /** A symbol size the encoding can use for a blob: large enough, and even for RS2. */
  predicate Holds(symbol: int, length: int, capacity: int, encoding: EncodingType) {
    AtLeastOne(length) <= capacity * symbol && (encoding == RS2 ==> symbol % 2 == 0)
  }

  lemma SymbolSizeIsLeast(length: int, capacity: int, encoding: EncodingType, other: int)
    requires 1 <= capacity
    ensures Holds(SymbolSize(length, capacity, encoding), length, capacity, encoding)
    ensures Holds(other, length, capacity, encoding) ==> SymbolSize(length, capacity, encoding) <= other
  {
    var m, ceil := AtLeastOne(length), (AtLeastOne(length) - 1) / capacity + 1;
    var symbol := SymbolSize(length, capacity, encoding);
    CeilIsLeast(m, capacity, other);
    MulMonotone(ceil, symbol, capacity);
  }

  lemma CeilIsLeast(m: int, capacity: int, other: int)
    requires 1 <= m && 1 <= capacity
    ensures m <= capacity * ((m - 1) / capacity + 1)
    ensures m <= capacity * other ==> (m - 1) / capacity + 1 <= other
  {
    var q := (m - 1) / capacity;
    DivBounds(m - 1, capacity);
    if other <= q {
      MulMonotone(other, q, capacity);
    }
  }

  lemma DivBounds(a: int, d: int)
    requires 0 <= a && 1 <= d
    ensures d * (a / d) <= a < d * (a / d) + d
    ensures 0 <= a / d
  {
  }

  // ---------- the RS2 expansion bound ----------

  /** 9ps - 2(p+s)n factors as (5n - 6f)(n - 3f) when p = n - 2f and s = n - f. */
  lemma RatioIdentity(n: int, f: int)
    ensures 9 * ((n - 2 * f) * (n - f)) - 2 * ((n - 2 * f + (n - f)) * n) == (5 * n - 6 * f) * (n - 3 * f)
  {
    Expand(1, -2, 1, -1, n, f);
    Expand(2, -3, 1, 0, n, f);
    Expand(5, -6, 1, -3, n, f);
  }

  lemma Expand(a: int, b: int, c: int, d: int, n: int, f: int)
    ensures (a * n + b * f) * (c * n + d * f) == a * c * (n * n) + (a * d + b * c) * (n * f) + b * d * (f * f)
  {
  }

  lemma Distribute(a: int, b: int, k: int)
    ensures (a + b) * k == a * k + b * k
  {
  }

  lemma ShardRatio(nShards: int)
    requires 1 <= nShards
    ensures 2 * ((PrimarySymbols(nShards, RS2) + SecondarySymbols(nShards, RS2)) * nShards)
         <= 9 * (PrimarySymbols(nShards, RS2) * SecondarySymbols(nShards, RS2))
  {
    var n, f := nShards, MaxFaulty(nShards);
    RatioIdentity(n, f);
    MulMonotone(0, 5 * n - 6 * f, n - 3 * f);
  }

  /** rate bytes per symbol byte, capacity of one symbol byte: the bound on rate * symbol. */
  lemma BoundFromRatio(rate: int, capacity: int, m: int, symbol: int)
    requires 0 <= symbol && 1 <= capacity && 1 <= m
    requires 2 * rate <= 9 * capacity && symbol <= (m - 1) / capacity + 2
    ensures 2 * (rate * symbol) <= 9 * (m - 1 + 2 * capacity)
  {
    var q := (m - 1) / capacity;
    DivBounds(m - 1, capacity);
    MulMonotone(symbol, q + 2, capacity);
    Distribute(q, 2, capacity);
    MulMonotone(2 * rate, 9 * capacity, symbol);
    assert 2 * rate * symbol == 2 * (rate * symbol);
    assert 9 * capacity * symbol == 9 * (symbol * capacity);
  }

  lemma ExpansionBound(length: int, nShards: int)
    requires 1 <= nShards
    ensures 2 * SliverSize(length, nShards, RS2)
         <= 9 * (AtLeastOne(length) - 1 + 2 * (PrimarySymbols(nShards, RS2) * SecondarySymbols(nShards, RS2)))
  {
    var floor, rate, capacity := EncodedLengthShape(length, nShards, RS2);
    ShardRatio(nShards);
    SymbolSizeNear(length, capacity, RS2);
    BoundFromRatio(rate, capacity, AtLeastOne(length), SymbolSize(length, capacity, RS2));
  }

  lemma SymbolSizeNear(length: int, capacity: int, encoding: EncodingType)
    requires 1 <= capacity
    ensures 0 <= SymbolSize(length, capacity, encoding) <= (AtLeastOne(length) - 1) / capacity + 2
  {
    DivBounds(AtLeastOne(length) - 1, capacity);
  }

  // ---------- the charge is monotone and subadditive ----------

  lemma SymbolSizeMonotone(a: int, b: int, capacity: int, encoding: EncodingType)
    requires 1 <= capacity && a <= b
    ensures SymbolSize(a, capacity, encoding) <= SymbolSize(b, capacity, encoding)
  {
    var symbol := SymbolSize(b, capacity, encoding);
    SymbolSizeIsLeast(b, capacity, encoding, symbol);
    SymbolSizeIsLeast(a, capacity, encoding, symbol);
  }

  lemma HoldsAdds(x: int, y: int, a: int, b: int, capacity: int, encoding: EncodingType)
    requires 0 <= a && 0 <= b
    requires Holds(x, a, capacity, encoding) && Holds(y, b, capacity, encoding)
    ensures Holds(x + y, a + b, capacity, encoding)
  {
    Distribute(x, y, capacity);
  }

  lemma SymbolSizeSubadditive(a: int, b: int, capacity: int, encoding: EncodingType)
    requires 1 <= capacity && 0 <= a && 0 <= b
    ensures SymbolSize(a + b, capacity, encoding) <= SymbolSize(a, capacity, encoding) + SymbolSize(b, capacity, encoding)
  {
    var x, y := SymbolSize(a, capacity, encoding), SymbolSize(b, capacity, encoding);
    SymbolSizeIsLeast(a, capacity, encoding, x);
    SymbolSizeIsLeast(b, capacity, encoding, y);
    HoldsAdds(x, y, a, b, capacity, encoding);
    SymbolSizeIsLeast(a + b, capacity, encoding, x + y);
  }

  lemma SwapFactors(a: int, b: int, c: int)
    ensures a * b * c == a * c * b
  {
    assert a * b * c == a * (b * c);
    assert a * c * b == a * (c * b);
  }

  /** The encoded length is a fixed floor plus a rate per byte of symbol. */
  lemma EncodedLengthShape(length: int, nShards: int, encoding: EncodingType) returns (floor: int, rate: int, capacity: int)
    requires 1 <= nShards
    ensures capacity == PrimarySymbols(nShards, encoding) * SecondarySymbols(nShards, encoding) && 1 <= capacity
    ensures floor == nShards * (nShards * DIGEST_LEN * 2 + BLOB_ID_LEN) && 0 <= floor
    ensures rate == (PrimarySymbols(nShards, encoding) + SecondarySymbols(nShards, encoding)) * nShards && 0 <= rate
    ensures SliverSize(length, nShards, encoding) == rate * SymbolSize(length, capacity, encoding)
    ensures EncodedLength(length, nShards, encoding) == floor + rate * SymbolSize(length, capacity, encoding)
  {
    var p, s := PrimarySymbols(nShards, encoding), SecondarySymbols(nShards, encoding);
    SymbolsArePositive(nShards, encoding);
    capacity := p * s;
    floor := nShards * (nShards * DIGEST_LEN * 2 + BLOB_ID_LEN);
    rate := (p + s) * nShards;
    MulMonotone(0, nShards, nShards * DIGEST_LEN * 2 + BLOB_ID_LEN);
    MulMonotone(0, p + s, nShards);
    SwapFactors(p + s, SymbolSize(length, capacity, encoding), nShards);
  }

  lemma UnitsMonotone(a: int, b: int)
    requires a <= b
    ensures StorageUnits(a) <= StorageUnits(b)
  {
  }

  lemma UnitsSubadditive(a: int, b: int)
    ensures StorageUnits(a + b) <= StorageUnits(a) + StorageUnits(b)
  {
  }

  lemma CostInUnits(units: int, more: int, epochs: int, moreEpochs: int, state: SystemState)
    requires 0 <= units <= more && 0 <= epochs <= moreEpochs && 0 <= state.storagePrice && 0 <= state.writePrice
    ensures units * state.storagePrice * epochs + units * state.writePrice
         <= more * state.storagePrice * moreEpochs + more * state.writePrice
  {
    MulMonotone(units, more, state.writePrice);
    MulMonotone(units, more, state.storagePrice);
    MulMonotone(0, units, state.storagePrice);
    MulMonotone(units * state.storagePrice, more * state.storagePrice, epochs);
    MulMonotone(epochs, moreEpochs, more * state.storagePrice);
  }

  lemma CostMonotone(size: int, bigger: int, epochs: int, longer: int, state: SystemState)
    requires size <= bigger && epochs <= longer
    requires ComputeWalCost(size, epochs, state).Success?
    ensures ComputeWalCost(bigger, longer, state).Success?
    ensures ComputeWalCost(size, epochs, state).value.total <= ComputeWalCost(bigger, longer, state).value.total
  {
    var n, e := state.nShards, state.encoding;
    var floor, rate, capacity := EncodedLengthShape(size, n, e);
    var _, _, _ := EncodedLengthShape(bigger, n, e);
    SymbolSizeMonotone(size, bigger, capacity, e);
    MulMonotone(SymbolSize(size, capacity, e), SymbolSize(bigger, capacity, e), rate);
    UnitsMonotone(EncodedLength(size, n, e), EncodedLength(bigger, n, e));
    UnitsNonNegative(size, n, e);
    CostInUnits(StorageUnits(EncodedLength(size, n, e)), StorageUnits(EncodedLength(bigger, n, e)), epochs, longer, state);
  }

  lemma UnitsNonNegative(size: int, nShards: int, encoding: EncodingType)
    requires 1 <= nShards
    ensures 0 <= StorageUnits(EncodedLength(size, nShards, encoding))
  {
    LengthNonNegative(size, nShards, encoding);
    UnitsOfNonNegative(EncodedLength(size, nShards, encoding));
  }

  lemma LengthNonNegative(size: int, nShards: int, encoding: EncodingType)
    requires 1 <= nShards
    ensures 0 <= EncodedLength(size, nShards, encoding)
  {
    var floor, rate, capacity := EncodedLengthShape(size, nShards, encoding);
    SymbolSizeNear(size, capacity, encoding);
    NonNegativeLength(floor, rate, SymbolSize(size, capacity, encoding));
  }

  lemma UnitsOfNonNegative(length: int)
    requires 0 <= length
    ensures 0 <= StorageUnits(length)
  {
  }

  lemma NonNegativeLength(floor: int, rate: int, symbol: int)
    requires 0 <= floor && 0 <= rate && 0 <= symbol
    ensures 0 <= floor + rate * symbol
  {
    MulMonotone(0, symbol, rate);
  }

  lemma PartsCoverWhole(floor: int, rate: int, x: int, y: int, z: int)
    requires 0 <= floor && 0 <= rate && z <= x + y
    ensures floor + rate * z <= (floor + rate * x) + (floor + rate * y)
  {
    MulMonotone(z, x + y, rate);
    Distribute(x, y, rate);
  }

  lemma LengthSubadditive(a: int, b: int, nShards: int, encoding: EncodingType)
    requires 1 <= nShards && 0 <= a && 0 <= b
    ensures EncodedLength(a + b, nShards, encoding) <= EncodedLength(a, nShards, encoding) + EncodedLength(b, nShards, encoding)
  {
    var floor, rate, capacity := EncodedLengthShape(a, nShards, encoding);
    var _, _, _ := EncodedLengthShape(b, nShards, encoding);
    var _, _, _ := EncodedLengthShape(a + b, nShards, encoding);
    var x, y, z := SymbolSize(a, capacity, encoding), SymbolSize(b, capacity, encoding), SymbolSize(a + b, capacity, encoding);
    SymbolSizeSubadditive(a, b, capacity, encoding);
    PartsCoverWhole(floor, rate, x, y, z);
  }

  /** One blob never costs more than storing its two parts separately. */
  lemma CostSubadditive(a: int, b: int, epochs: int, state: SystemState)
    requires ComputeWalCost(a, epochs, state).Success? && ComputeWalCost(b, epochs, state).Success?
    ensures ComputeWalCost(a + b, epochs, state).Success?
    ensures ComputeWalCost(a + b, epochs, state).value.total
         <= ComputeWalCost(a, epochs, state).value.total + ComputeWalCost(b, epochs, state).value.total
  {
    var n, e := state.nShards, state.encoding;
    LengthSubadditive(a, b, n, e);
    var p, q, r := EncodedLength(a, n, e), EncodedLength(b, n, e), EncodedLength(a + b, n, e);
    UnitsMonotone(r, p + q);
    UnitsSubadditive(p, q);
    UnitsNonNegative(a + b, n, e);
    var u, v, w := StorageUnits(p), StorageUnits(q), StorageUnits(r);
    CostInUnits(w, u + v, epochs, epochs, state);
    SumSplits(u, v, state.storagePrice, epochs, state.writePrice);
  }

  lemma SumSplits(u: int, v: int, price: int, epochs: int, write: int)
    ensures (u + v) * price * epochs + (u + v) * write
         == (u * price * epochs + u * write) + (v * price * epochs + v * write)
  {
    Distribute(u, v, price);
    Distribute(u * price, v * price, epochs);
    Distribute(u, v, write);
  }

  // ---------- the charge, with every constant written out ----------

  /** f is the most shards that can fail with more than twice as many left; RedStuff holds back a fifth of f, at most five. */
  lemma ShardsHeldBack(nShards: int, encoding: EncodingType, f: int)
    requires 1 <= nShards && 3 * f < nShards <= 3 * f + 3
    ensures PrimarySymbols(nShards, RS2) == nShards - 2 * f && SecondarySymbols(nShards, RS2) == nShards - f
    ensures f < 25 ==> PrimarySymbols(nShards, RedStuff) == nShards - 2 * f - f / 5 && SecondarySymbols(nShards, RedStuff) == nShards - f - f / 5
    ensures 25 <= f ==> PrimarySymbols(nShards, RedStuff) == nShards - 2 * f - 5 && SecondarySymbols(nShards, RedStuff) == nShards - f - 5
  {
  }

  /** Each shard stores two 32-byte hashes for each shard's pair of slivers, the blob id, and its primary and secondary sliver. */
  lemma EncodedWrittenOut(length: int, nShards: int, encoding: EncodingType)
    requires 1 <= nShards
    ensures var p, s := PrimarySymbols(nShards, encoding), SecondarySymbols(nShards, encoding);
            1 <= p * s
            && EncodedLength(length, nShards, encoding)
               == nShards * (64 * nShards + 32) + (p + s) * nShards * SymbolSize(length, p * s, encoding)
  {
    var floor, rate, capacity := EncodedLengthShape(length, nShards, encoding);
    HashesAndId(nShards);
  }

  lemma HashesAndId(n: int)
    ensures n * (n * DIGEST_LEN * 2 + BLOB_ID_LEN) == n * (64 * n + 32)
  {
    assert n * DIGEST_LEN * 2 + BLOB_ID_LEN == 64 * n + 32;
  }

  lemma Commute(a: int, b: int)
    ensures a * b == b * a
  {
  }

  /** The fewest whole mebibytes that hold the encoded blob, each charged once for writing and once per epoch for storage. */
  lemma ChargeWrittenOut(size: int, epochs: int, state: SystemState)
    requires ComputeWalCost(size, epochs, state).Success?
    ensures 0 <= size && 1 <= epochs && 1 <= state.nShards && 0 <= state.storagePrice && 0 <= state.writePrice
    ensures var b := ComputeWalCost(size, epochs, state).value;
            && b.encodedSize == EncodedLength(size, state.nShards, state.encoding)
            && (b.storageUnits - 1) * 1048576 < b.encodedSize <= b.storageUnits * 1048576
            && b.storageCost == b.storageUnits * (state.storagePrice * epochs) && b.writeCost == b.storageUnits * state.writePrice
            && b.total == b.storageUnits * (state.storagePrice * epochs + state.writePrice)
  {
    var b := ComputeWalCost(size, epochs, state).value;
    Distribute(state.storagePrice * epochs, state.writePrice, b.storageUnits);
    Reassociate(b.storageUnits, state.storagePrice, epochs);
    Commute(b.storageUnits, state.storagePrice * epochs);
    Commute(b.storageUnits, state.writePrice);
    Commute(b.storageUnits, state.storagePrice * epochs + state.writePrice);
  }

  lemma Reassociate(a: int, b: int, c: int)
    ensures a * b * c == a * (b * c)
  {
  }

  /** One epoch more costs the storage price of every unit, and nothing for writing. */
  lemma OneEpochMore(size: int, epochs: int, state: SystemState)
    requires ComputeWalCost(size, epochs, state).Success?
    ensures var b, more := ComputeWalCost(size, epochs, state).value, ComputeWalCost(size, epochs + 1, state);
            more.Success? && more.value.total == b.total + b.storageUnits * state.storagePrice
  {
    var units := ComputeWalCost(size, epochs, state).value.storageUnits;
    Distribute(epochs, 1, units * state.storagePrice);
    Commute(units * state.storagePrice, epochs);
    Commute(units * state.storagePrice, epochs + 1);
  }
}
