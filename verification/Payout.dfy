/** The payout chain in scaled 128-bit integers: gross PRM, staking boost, USD redemption,
    house edge, then cents and wei, with a floor at each division. */
module Payout {
  import opened Basics

  const BPS: nat := 10_000
  const MULTIPLIER_SCALE: nat := 10
  const PRICE_COEFFICIENT_SCALE: nat := 1_000_000_000_000_000
  const TWAP_DECIMALS_SCALE: nat := 100_000_000
  const USDC_SCALE: nat := 1_000_000
  const GROSS_CALIB_TO_WEI: nat := 10_000_000_000_000
  const USDC_TO_CENTS: nat := 10_000
  const MAX_BOOST_BPS: nat := 4_000

  /** A 128-bit computation: a value, or an intermediate result that does not fit. */
  datatype Checked<+T> = Overflow | Value(value: T) {
    predicate IsFailure() {
      Overflow?
    }

    function PropagateFailure<U>(): Checked<U>
      requires Overflow?
    {
      Overflow
    }

    function Extract(): T
      requires Value?
    {
      value
    }
  }

  function Mul(a: nat, b: nat): Checked<nat> {
    if a * b <= MAX_U128 then Value(a * b) else Overflow
  }

  datatype Commodity = Gold | Platinum | Silver | CrudeOil

  function Multiplier(commodity: Commodity): nat {
    match commodity
    case Gold => 32
    case Platinum => 26
    case Silver => 16
    case CrudeOil => 10
  }

  function Difficulty(commodity: Commodity): nat {
    match commodity
    case Gold => 40
    case Platinum => 32
    case Silver => 20
    case CrudeOil => 10
  }

  datatype Config = Config(baseCoefficient: nat, priceCoefficient: nat, houseEdgeBps: nat)

  const DEFAULT_CONFIG := Config(1_000, 1_000, 1_700)

  function GrossPrm(hashrate: nat, duration: nat, config: Config, commodity: Commodity): Checked<nat> {
    var work :- Mul(hashrate, duration);
    var numerator :- Mul(work, config.baseCoefficient);
    Value(numerator / Difficulty(commodity))
  }

  function StakingBoost(gross: nat, boostBps: nat): Checked<nat> {
    var boosted :- Mul(gross, BPS + boostBps);
    Value(boosted / BPS)
  }

  function RedemptionUsd(gross: nat, twap: nat, commodity: Commodity, config: Config): Checked<nat> {
    var a :- Mul(gross, twap);
    var b :- Mul(a, Multiplier(commodity));
    var c :- Mul(b, config.priceCoefficient);
    var d :- Mul(c, USDC_SCALE);
    Value(d / MULTIPLIER_SCALE / PRICE_COEFFICIENT_SCALE / TWAP_DECIMALS_SCALE)
  }

  function Kept(houseEdgeBps: nat): nat {
    if houseEdgeBps >= BPS then 0 else BPS - houseEdgeBps
  }

  function HouseEdge(redemption: nat, houseEdgeBps: nat): Checked<nat> {
    var kept :- Mul(redemption, Kept(houseEdgeBps));
    Value(kept / BPS)
  }

  /** Base units of the token, saturating. */
  function ToWei(gross: nat): nat {
    SaturatingMul(gross, GROSS_CALIB_TO_WEI, MAX_U128)
  }

  /** What a session settles for; `cents` is the signed 64-bit figure before its range check. */
  datatype Settlement = Settlement(boostedGross: nat, redemption: nat, net: nat, wei: nat, cents: nat)

  /** The terms that do not depend on the duration. */
  datatype Rate = Rate(hashrate: nat, twap: nat, commodity: Commodity, boostBps: nat, config: Config)

  /** The whole chain as the end of a session runs it. */
  function Settle(rate: Rate, duration: nat): Checked<Settlement> {
    var gross :- GrossPrm(rate.hashrate, duration, rate.config, rate.commodity);
    var boosted :- StakingBoost(gross, rate.boostBps);
    var redemption :- RedemptionUsd(boosted, rate.twap, rate.commodity, rate.config);
    var net :- HouseEdge(redemption, rate.config.houseEdgeBps);
    Value(Settlement(boosted, redemption, net, ToWei(boosted), net / USDC_TO_CENTS))
  }

  /** The calibration example: 8 hours of 2,500 H/s on gold at $3,204 redeem for $18.455040
      and leave $15.317683 after the edge. */
  lemma CalibrationExample()
    ensures var s := Settle(Rate(2_500, 3_204 * TWAP_DECIMALS_SCALE, Gold, 0, DEFAULT_CONFIG), 28_800);
            s.Value? && s.value.redemption == 18_455_040 && s.value.net == 15_317_683 && s.value.cents == 1_531
  {
    var rate := Rate(2_500, 3_204 * TWAP_DECIMALS_SCALE, Gold, 0, DEFAULT_CONFIG);
    assert GrossPrm(rate.hashrate, 28_800, rate.config, rate.commodity) == Value(1_800_000_000);
  }

  // ----- One stage: multiply, divide, round down -----

  function Scaled(x: nat, m: nat, k: nat): nat
    requires k > 0
  {
    x * m / k
  }

  /** The quotient is the largest number that fits `k` times. */
  lemma DivLargest(x: nat, k: nat, q: nat)
    requires k > 0 && k * q <= x
    ensures q <= x / k
  {
    var d := x / k;
    assert x == k * d + x % k;
    assert k * (d - q) == k * d - k * q;
    FactorSign(k, d - q);
  }

  lemma DivMonotone(a: nat, b: nat, k: nat)
    requires a <= b && k > 0
    ensures a / k <= b / k
  {
    assert a == k * (a / k) + a % k;
    DivLargest(b, k, a / k);
  }

  /** A stage pays no less for more. */
  lemma ScaledMonotone(x: nat, y: nat, m: nat, n: nat, k: nat)
    requires x <= y && m <= n && k > 0
    ensures Scaled(x, m, k) <= Scaled(y, n, k)
  {
    MulMonotone(x, y, m, n);
    DivMonotone(x * m, y * n, k);
  }

  lemma DivSplit(a: nat, b: nat, k: nat)
    requires k > 0
    ensures a / k + b / k <= (a + b) / k
  {
    assert a == k * (a / k) + a % k;
    assert b == k * (b / k) + b % k;
    assert k * (a / k + b / k) == k * (a / k) + k * (b / k);
    DivLargest(a + b, k, a / k + b / k);
  }

  /** A stage pays no more for two parts than for the whole. */
  lemma ScaledSplit(x: nat, y: nat, z: nat, m: nat, k: nat)
    requires x + y <= z && k > 0
    ensures Scaled(x, m, k) + Scaled(y, m, k) <= Scaled(z, m, k)
  {
    assert x * m + y * m == (x + y) * m;
    MulMonotone(x + y, z, m, m);
    DivSplit(x * m, y * m, k);
    DivMonotone((x + y) * m, z * m, k);
  }

  // ----- The chain without overflow -----

  function IdealGross(rate: Rate, duration: nat): nat {
    Scaled(rate.hashrate * duration, rate.config.baseCoefficient, Difficulty(rate.commodity))
  }

  function IdealBoosted(rate: Rate, duration: nat): nat {
    Scaled(IdealGross(rate, duration), BPS + rate.boostBps, BPS)
  }

  function PriceFactor(rate: Rate): nat {
    rate.twap * Multiplier(rate.commodity) * rate.config.priceCoefficient * USDC_SCALE
  }

  const PRICE_DIVISOR: nat := 1_000_000_000_000_000_000_000_000

  function IdealRedemption(rate: Rate, duration: nat): nat {
    Scaled(IdealBoosted(rate, duration), PriceFactor(rate), PRICE_DIVISOR)
  }

  function IdealNet(rate: Rate, duration: nat): nat {
    Scaled(IdealRedemption(rate, duration), Kept(rate.config.houseEdgeBps), BPS)
  }

  /** Three floors in a row are one floor by the product. */
  lemma FloorOfFloors(x: nat)
    ensures x / MULTIPLIER_SCALE / PRICE_COEFFICIENT_SCALE / TWAP_DECIMALS_SCALE == x / PRICE_DIVISOR
  {
  }

  lemma PriceFactorAssociates(gross: nat, rate: Rate)
    ensures gross * rate.twap * Multiplier(rate.commodity) * rate.config.priceCoefficient * USDC_SCALE
            == gross * PriceFactor(rate)
  {
    var t, m, p := rate.twap, Multiplier(rate.commodity), rate.config.priceCoefficient;
    assert gross * t * m == gross * (t * m);
    assert gross * (t * m) * p == gross * (t * m * p);
    assert gross * (t * m * p) * USDC_SCALE == gross * (t * m * p * USDC_SCALE);
  }

  /** A computation that goes through computes the chain of floors, and a smaller one on
      the same terms goes through as well. */
  lemma SettleIdeal(rate: Rate, duration: nat)
    requires Settle(rate, duration).Value?
    ensures var s := Settle(rate, duration).value;
            && s.boostedGross == IdealBoosted(rate, duration)
            && s.redemption == IdealRedemption(rate, duration)
            && s.net == IdealNet(rate, duration)
            && s.wei == ToWei(s.boostedGross) && s.cents == s.net / USDC_TO_CENTS
  {
    var boosted := IdealBoosted(rate, duration);
    PriceFactorAssociates(boosted, rate);
    FloorOfFloors(boosted * PriceFactor(rate));
  }

  /** The chain in numbers, each floor as the two inequalities that make it one: gross by the
      commodity's difficulty, boost in basis points, redemption by the commodity's multiplier
      in micro-dollars, the edge, the wei and the cents. */
  ghost predicate FloorChain(rate: Rate, duration: nat, gross: nat, s: Settlement) {
    var (difficulty, multiplier) :=
      match rate.commodity {
        case Gold => (40, 32)
        case Platinum => (32, 26)
        case Silver => (20, 16)
        case CrudeOil => (10, 10)
      };
    var factor := rate.twap * multiplier * rate.config.priceCoefficient * 1_000_000;
    var kept := if rate.config.houseEdgeBps >= 10_000 then 0 else 10_000 - rate.config.houseEdgeBps;
    && IsFloor(gross, rate.hashrate * duration * rate.config.baseCoefficient, difficulty)
    && IsFloor(s.boostedGross, gross * (10_000 + rate.boostBps), 10_000)
    && IsFloor(s.redemption, s.boostedGross * factor, 1_000_000_000_000_000_000_000_000)
    && IsFloor(s.net, s.redemption * kept, 10_000)
    && IsFloor(s.cents, s.net, 10_000)
    && (s.boostedGross * 10_000_000_000_000 <= MAX_U128 ==> s.wei == s.boostedGross * 10_000_000_000_000)
    && (s.boostedGross * 10_000_000_000_000 > MAX_U128 ==> s.wei == MAX_U128)
  }

  ghost predicate IsFloor(q: nat, x: nat, k: nat) {
    k * q <= x < k * (q + 1)
  }

  lemma FloorIs(x: nat, k: nat)
    requires k > 0
    ensures IsFloor(x / k, x, k)
  {
    assert x == k * (x / k) + x % k;
  }

  /** A computation that goes through gives exactly these numbers. */
  lemma SettleInNumbers(rate: Rate, duration: nat) returns (gross: nat)
    requires Settle(rate, duration).Value?
    ensures FloorChain(rate, duration, gross, Settle(rate, duration).value)
  {
    SettleIdeal(rate, duration);
    gross := IdealGross(rate, duration);
    FloorIs(rate.hashrate * duration * rate.config.baseCoefficient, Difficulty(rate.commodity));
    FloorIs(gross * (BPS + rate.boostBps), BPS);
    FloorIs(IdealBoosted(rate, duration) * PriceFactor(rate), PRICE_DIVISOR);
    FloorIs(IdealRedemption(rate, duration) * Kept(rate.config.houseEdgeBps), BPS);
    FloorIs(IdealNet(rate, duration), USDC_TO_CENTS);
  }

  /** And it goes through exactly when each product in it fits 128 bits. */
  lemma SettlesIff(rate: Rate, duration: nat)
    ensures Settle(rate, duration).Value? <==>
            var (gross, boosted, redemption) :=
              (IdealGross(rate, duration), IdealBoosted(rate, duration), IdealRedemption(rate, duration));
            var priced := boosted * rate.twap * Multiplier(rate.commodity);
            && rate.hashrate * duration <= MAX_U128
            && rate.hashrate * duration * rate.config.baseCoefficient <= MAX_U128
            && gross * (10_000 + rate.boostBps) <= MAX_U128
            && boosted * rate.twap <= MAX_U128 && priced <= MAX_U128
            && priced * rate.config.priceCoefficient <= MAX_U128
            && priced * rate.config.priceCoefficient * 1_000_000 <= MAX_U128
            && redemption * Kept(rate.config.houseEdgeBps) <= MAX_U128
  {
    var boosted := IdealBoosted(rate, duration);
    PriceFactorAssociates(boosted, rate);
    FloorOfFloors(boosted * PriceFactor(rate));
  }

  /** The terms of one session are no better than those of another: less work, price and
      boost, and no lower edge. */
  ghost predicate NoBetter(a: Rate, da: nat, b: Rate, db: nat) {
    && a.hashrate <= b.hashrate && da <= db && a.twap <= b.twap && a.boostBps <= b.boostBps
    && a.commodity == b.commodity
    && a.config == b.config.(houseEdgeBps := a.config.houseEdgeBps)
    && b.config.houseEdgeBps <= a.config.houseEdgeBps
  }

  lemma GrossMonotone(a: Rate, da: nat, b: Rate, db: nat)
    requires NoBetter(a, da, b, db) && GrossPrm(b.hashrate, db, b.config, b.commodity).Value?
    ensures var g, g' := GrossPrm(a.hashrate, da, a.config, a.commodity),
            GrossPrm(b.hashrate, db, b.config, b.commodity);
            g.Value? && g.value <= g'.value
  {
    MulMonotone(a.hashrate, b.hashrate, da, db);
    ScaledMonotone(a.hashrate * da, b.hashrate * db, a.config.baseCoefficient, b.config.baseCoefficient,
                   Difficulty(a.commodity));
    MulMonotone(a.hashrate * da, b.hashrate * db, a.config.baseCoefficient, b.config.baseCoefficient);
  }

  lemma BoostMonotone(x: nat, y: nat, m: nat, n: nat)
    requires x <= y && m <= n && StakingBoost(y, n).Value?
    ensures StakingBoost(x, m).Value? && StakingBoost(x, m).value <= StakingBoost(y, n).value
  {
    MulMonotone(x, y, BPS + m, BPS + n);
    ScaledMonotone(x, y, BPS + m, BPS + n, BPS);
  }

  lemma RedemptionMonotone(x: nat, y: nat, p: nat, q: nat, commodity: Commodity, config: Config, config': Config)
    requires x <= y && p <= q && config.priceCoefficient == config'.priceCoefficient
    requires RedemptionUsd(y, q, commodity, config').Value?
    ensures RedemptionUsd(x, p, commodity, config).Value?
    ensures RedemptionUsd(x, p, commodity, config).value <= RedemptionUsd(y, q, commodity, config').value
  {
    var m, c := Multiplier(commodity), config.priceCoefficient;
    MulMonotone(x, y, p, q);
    MulMonotone(x * p, y * q, m, m);
    MulMonotone(x * p * m, y * q * m, c, c);
    FloorOfFloors(x * p * m * c * USDC_SCALE);
    FloorOfFloors(y * q * m * c * USDC_SCALE);
    DivMonotone(x * p * m * c * USDC_SCALE, y * q * m * c * USDC_SCALE, PRICE_DIVISOR);
  }

  lemma EdgeMonotone(x: nat, y: nat, edge: nat, edge': nat)
    requires x <= y && edge' <= edge && HouseEdge(y, edge').Value?
    ensures HouseEdge(x, edge).Value? && HouseEdge(x, edge).value <= HouseEdge(y, edge').value
  {
    MulMonotone(x, y, Kept(edge), Kept(edge'));
    ScaledMonotone(x, y, Kept(edge), Kept(edge'), BPS);
  }

  /** Through all floors the payout grows with hashrate, duration, price and boost and
      shrinks with the edge; and it overflows on no smaller input. */
  lemma SettleMonotone(a: Rate, da: nat, b: Rate, db: nat)
    requires NoBetter(a, da, b, db) && Settle(b, db).Value?
    ensures Settle(a, da).Value?
    ensures var s, s' := Settle(a, da).value, Settle(b, db).value;
            s.boostedGross <= s'.boostedGross && s.redemption <= s'.redemption && s.net <= s'.net
            && s.wei <= s'.wei && s.cents <= s'.cents
  {
    var gross' := GrossPrm(b.hashrate, db, b.config, b.commodity).value;
    var boosted' := StakingBoost(gross', b.boostBps).value;
    var redemption' := RedemptionUsd(boosted', b.twap, b.commodity, b.config).value;
    GrossMonotone(a, da, b, db);
    var gross := GrossPrm(a.hashrate, da, a.config, a.commodity).value;
    BoostMonotone(gross, gross', a.boostBps, b.boostBps);
    var boosted := StakingBoost(gross, a.boostBps).value;
    RedemptionMonotone(boosted, boosted', a.twap, b.twap, a.commodity, a.config, b.config);
    var redemption := RedemptionUsd(boosted, a.twap, a.commodity, a.config).value;
    EdgeMonotone(redemption, redemption', a.config.houseEdgeBps, b.config.houseEdgeBps);
  }

  // ----- Splitting a session -----

  lemma SplitInTwo(rate: Rate, d: nat, e: nat)
    ensures IdealBoosted(rate, d) + IdealBoosted(rate, e) <= IdealBoosted(rate, d + e)
    ensures IdealNet(rate, d) + IdealNet(rate, e) <= IdealNet(rate, d + e)
    ensures IdealNet(rate, d) / USDC_TO_CENTS + IdealNet(rate, e) / USDC_TO_CENTS
            <= IdealNet(rate, d + e) / USDC_TO_CENTS
  {
    var h := rate.hashrate;
    assert h * d + h * e == h * (d + e);
    ScaledSplit(h * d, h * e, h * (d + e), rate.config.baseCoefficient, Difficulty(rate.commodity));
    ScaledSplit(IdealGross(rate, d), IdealGross(rate, e), IdealGross(rate, d + e), BPS + rate.boostBps, BPS);
    ScaledSplit(IdealBoosted(rate, d), IdealBoosted(rate, e), IdealBoosted(rate, d + e), PriceFactor(rate),
                PRICE_DIVISOR);
    ScaledSplit(IdealRedemption(rate, d), IdealRedemption(rate, e), IdealRedemption(rate, d + e),
                Kept(rate.config.houseEdgeBps), BPS);
    DivSplit(IdealNet(rate, d), IdealNet(rate, e), USDC_TO_CENTS);
    DivMonotone(IdealNet(rate, d) + IdealNet(rate, e), IdealNet(rate, d + e), USDC_TO_CENTS);
  }

  function Total(xs: seq<nat>): nat {
    if xs == [] then 0 else xs[0] + Total(xs[1..])
  }

  function CentsOf(rate: Rate, pieces: seq<nat>): nat {
    if pieces == [] then 0 else IdealNet(rate, pieces[0]) / USDC_TO_CENTS + CentsOf(rate, pieces[1..])
  }

  function WeiOf(rate: Rate, pieces: seq<nat>): nat {
    if pieces == [] then 0 else ToWei(IdealBoosted(rate, pieces[0])) + WeiOf(rate, pieces[1..])
  }

  lemma {:induction false} SplitSums(rate: Rate, pieces: seq<nat>)
    ensures CentsOf(rate, pieces) <= IdealNet(rate, Total(pieces)) / USDC_TO_CENTS
    ensures WeiOf(rate, pieces) <= IdealBoosted(rate, Total(pieces)) * GROSS_CALIB_TO_WEI
  {
    if pieces == [] {
    } else {
      SplitSums(rate, pieces[1..]);
      SplitInTwo(rate, pieces[0], Total(pieces[1..]));
    }
  }

  /** Cutting a session into pieces on the same terms never pays more: every piece settles,
      and the pieces' cents, and their wei where the whole does not saturate, add up to at
      most those of the whole. */
  lemma SplittingNeverPaysMore(rate: Rate, pieces: seq<nat>)
    requires Settle(rate, Total(pieces)).Value?
    ensures forall d :: d in pieces ==> Settle(rate, d).Value?
                                        && Settle(rate, d).value.cents == IdealNet(rate, d) / USDC_TO_CENTS
                                        && Settle(rate, d).value.wei == ToWei(IdealBoosted(rate, d))
    ensures CentsOf(rate, pieces) <= Settle(rate, Total(pieces)).value.cents
    ensures Settle(rate, Total(pieces)).value.boostedGross * GROSS_CALIB_TO_WEI <= MAX_U128 ==>
              WeiOf(rate, pieces) <= Settle(rate, Total(pieces)).value.wei
  {
    SplitSums(rate, pieces);
    SettleIdeal(rate, Total(pieces));
    forall d | d in pieces
      ensures Settle(rate, d).Value? && Settle(rate, d).value.cents == IdealNet(rate, d) / USDC_TO_CENTS
      ensures Settle(rate, d).value.wei == ToWei(IdealBoosted(rate, d))
    {
      PieceWithinTotal(pieces, d);
      SettleMonotone(rate, d, rate, Total(pieces));
      SettleIdeal(rate, d);
    }
  }

  lemma {:induction false} PieceWithinTotal(pieces: seq<nat>, d: nat)
    requires d in pieces
    ensures d <= Total(pieces)
  {
    if pieces[0] != d {
      PieceWithinTotal(pieces[1..], d);
    }
  }

  // ----- Precision -----

  ghost function Ratio(m: nat, k: nat): (r: real)
    requires k > 0
    ensures r >= 0.0
  {
    m as real / k as real
  }

  /** What the formula gives without any rounding, stage by stage. */
  ghost function ExactGross(rate: Rate, duration: nat): real {
    Ratio(rate.hashrate * duration * rate.config.baseCoefficient, Difficulty(rate.commodity))
  }

  ghost function ExactBoosted(rate: Rate, duration: nat): real {
    ExactGross(rate, duration) * Ratio(BPS + rate.boostBps, BPS)
  }

  ghost function ExactRedemption(rate: Rate, duration: nat): real {
    ExactBoosted(rate, duration) * Ratio(PriceFactor(rate), PRICE_DIVISOR)
  }

  ghost function ExactNet(rate: Rate, duration: nat): real {
    ExactRedemption(rate, duration) * Ratio(Kept(rate.config.houseEdgeBps), BPS)
  }

  lemma FloorReal(x: nat, k: nat)
    requires k > 0
    ensures (x / k) as real <= Ratio(x, k) < (x / k) as real + 1.0
  {
    var q, r := x / k, x % k;
    assert x == k * q + r;
    assert k as real * q as real == (k * q) as real;
    assert x as real / k as real == q as real + r as real / k as real;
    ProperFraction(r, k);
  }

  lemma ProperFraction(r: nat, k: nat)
    requires r < k
    ensures 0.0 <= r as real / k as real < 1.0
  {
  }

  lemma RatioOfProduct(x: nat, m: nat, k: nat)
    requires k > 0
    ensures Ratio(x * m, k) == x as real * Ratio(m, k)
  {
    assert (x * m) as real == x as real * m as real;
  }

  lemma RealProducts(x: real, exact: real, error: real, f: real, bound: real)
    requires x <= exact < x + error && 0.0 <= f <= bound && error >= 0.0
    ensures x * f <= exact * f <= x * f + error * bound
  {
    assert exact * f <= (x + error) * f == x * f + error * f;
    assert error * f <= error * bound;
  }

  /** One stage adds less than one unit of its own to the error it inherits. */
  lemma StageError(x: nat, exact: real, error: real, m: nat, k: nat, bound: real)
    requires k > 0 && x as real <= exact < x as real + error && error >= 0.0
    requires Ratio(m, k) <= bound
    ensures Scaled(x, m, k) as real <= exact * Ratio(m, k) < Scaled(x, m, k) as real + 1.0 + error * bound
  {
    FloorReal(x * m, k);
    RatioOfProduct(x, m, k);
    RealProducts(x as real, exact, error, Ratio(m, k), bound);
  }

  lemma BoostRatio(boostBps: nat)
    requires boostBps <= MAX_BOOST_BPS
    ensures Ratio(BPS + boostBps, BPS) <= 1.4
  {
  }

  lemma BoostedError(rate: Rate, duration: nat)
    requires rate.boostBps <= MAX_BOOST_BPS
    ensures IdealBoosted(rate, duration) as real
            <= ExactBoosted(rate, duration) < IdealBoosted(rate, duration) as real + 2.4
  {
    FloorReal(rate.hashrate * duration * rate.config.baseCoefficient, Difficulty(rate.commodity));
    BoostRatio(rate.boostBps);
    StageError(IdealGross(rate, duration), ExactGross(rate, duration), 1.0, BPS + rate.boostBps, BPS, 1.4);
  }

  lemma RedemptionError(rate: Rate, duration: nat)
    requires rate.twap <= 100_000 * TWAP_DECIMALS_SCALE && rate.boostBps <= MAX_BOOST_BPS
    requires rate.config.priceCoefficient == DEFAULT_CONFIG.priceCoefficient
    ensures IdealRedemption(rate, duration) as real
            <= ExactRedemption(rate, duration) < IdealRedemption(rate, duration) as real + 1.768
  {
    BoostedError(rate, duration);
    PriceFactorBound(rate);
    StageError(IdealBoosted(rate, duration), ExactBoosted(rate, duration), 2.4, PriceFactor(rate), PRICE_DIVISOR, 0.32);
  }

  lemma NetError(rate: Rate, duration: nat)
    requires rate.twap <= 100_000 * TWAP_DECIMALS_SCALE && rate.boostBps <= MAX_BOOST_BPS
    requires rate.config.priceCoefficient == DEFAULT_CONFIG.priceCoefficient
    ensures IdealNet(rate, duration) as real <= ExactNet(rate, duration) < IdealNet(rate, duration) as real + 3.0
  {
    RedemptionError(rate, duration);
    StageError(IdealRedemption(rate, duration), ExactRedemption(rate, duration), 1.768, Kept(rate.config.houseEdgeBps),
               BPS, 1.0);
  }

  /** At prices up to $100,000, boosts up to 40% and the default price coefficient, the net
      never exceeds the exact formula and misses it by less than 3 micro-dollars, for every
      hashrate and duration that does not overflow. */
  lemma NetPrecision(rate: Rate, duration: nat)
    requires Settle(rate, duration).Value?
    requires rate.twap <= 100_000 * TWAP_DECIMALS_SCALE && rate.boostBps <= MAX_BOOST_BPS
    requires rate.config.priceCoefficient == DEFAULT_CONFIG.priceCoefficient
    ensures Settle(rate, duration).value.net as real
            <= ExactNet(rate, duration) < Settle(rate, duration).value.net as real + 3.0
  {
    SettleIdeal(rate, duration);
    NetError(rate, duration);
  }

  lemma PriceFactorBound(rate: Rate)
    requires rate.twap <= 100_000 * TWAP_DECIMALS_SCALE
    requires rate.config.priceCoefficient == DEFAULT_CONFIG.priceCoefficient
    ensures Ratio(PriceFactor(rate), PRICE_DIVISOR) <= 0.32
  {
    MulMonotone(rate.twap, 100_000 * TWAP_DECIMALS_SCALE, Multiplier(rate.commodity), 32);
    assert PriceFactor(rate) <= 320_000_000_000_000_000_000_000;
  }

  // ----- Range -----

  const TEN_YEARS: nat := 315_576_000

  /** Nothing overflows for hashrates up to 5,000 H/s, sessions up to ten years and prices
      up to $100,000 with the default coefficients, whatever the edge. */
  lemma NoOverflowInRange(rate: Rate, duration: nat)
    requires rate.hashrate <= 5_000 && duration <= TEN_YEARS && rate.twap <= 100_000 * TWAP_DECIMALS_SCALE
    requires rate.boostBps <= MAX_BOOST_BPS && rate.config == DEFAULT_CONFIG.(houseEdgeBps := rate.config.houseEdgeBps)
    ensures Settle(rate, duration).Value?
  {
    var most := Rate(5_000, 100_000 * TWAP_DECIMALS_SCALE, rate.commodity, MAX_BOOST_BPS,
                     DEFAULT_CONFIG.(houseEdgeBps := 0));
    assert GrossPrm(5_000, TEN_YEARS, most.config, most.commodity).Value?;
    assert Settle(most, TEN_YEARS).Value?;
    SettleMonotone(rate, duration, most, TEN_YEARS);
  }

  /** A session of at most 142,857 seconds mints at most a million PRM. */
  lemma SessionBelowMillion(rate: Rate, duration: nat)
    requires rate.hashrate <= 5_000 && duration <= 142_857 && rate.boostBps <= MAX_BOOST_BPS
    requires rate.config.baseCoefficient == DEFAULT_CONFIG.baseCoefficient
    ensures ToWei(IdealBoosted(rate, duration)) <= 1_000_000_000_000_000_000_000_000
  {
    MulMonotone(rate.hashrate, 5_000, duration, 142_857);
    ScaledMonotone(rate.hashrate * duration, 5_000 * 142_857, 1_000, 1_000, Difficulty(rate.commodity));
    var g := IdealGross(rate, duration);
    assert g <= 71_428_500_000;
    ScaledMonotone(g, 71_428_500_000, BPS + rate.boostBps, BPS + MAX_BOOST_BPS, BPS);
  }

  /** One second more, at the highest rate and boost, settles for more than that. */
  lemma MillionIsTight(twap: nat)
    requires twap <= 100_000 * TWAP_DECIMALS_SCALE
    ensures var settled := Settle(Rate(5_000, twap, CrudeOil, MAX_BOOST_BPS, DEFAULT_CONFIG), 142_858);
            settled.Value? && settled.value.wei > 1_000_000_000_000_000_000_000_000
  {
    var rate := Rate(5_000, twap, CrudeOil, MAX_BOOST_BPS, DEFAULT_CONFIG);
    NoOverflowInRange(rate, 142_858);
    SettleIdeal(rate, 142_858);
    assert IdealGross(rate, 142_858) == 71_429_000_000;
  }
}
