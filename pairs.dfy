/** The one generic price engine the four per-pair pages duplicate,
    parameterised by a pair configuration, and its four instances. */
module Pairs {
  import opened JsNumber
  import opened PriceMath
  import opened Swaps

  /** How a pool encodes its price, and how its Swap events are read. */
  datatype PoolModel =
    | ConcentratedLiquidity(reciprocal: bool, sideWhenBasePositive: Side)
    | ReservePair

  /** The constants of one page.  `base` is the token the page reports
      first in a transaction row; `httpUrlField` and `wsUrlField` are the
      fields of the endpoint resolver's answer the page reads. */
  datatype PairConfig = PairConfig(
    poolAddress: string,
    decimals0: nat,
    decimals1: nat,
    model: PoolModel,
    base: Token,
    httpUrlField: string,
    wsUrlField: string)

  /** What the one-shot read returns: `slot0()` or `getReserves()`. */
  datatype PoolState = Slot0(sqrtPriceX96: nat) | Reserves(reserve0: nat, reserve1: nat)

  /** The fields of a Swap event the handlers use. */
  datatype SwapEvent =
    | SignedSwap(amount0: int, amount1: int, sqrtPriceX96: nat)
    | UnnettedSwap(amount0In: nat, amount1In: nat, amount0Out: nat, amount1Out: nat)

  predicate ReadsState(cfg: PairConfig, state: PoolState)
  {
    cfg.model.ConcentratedLiquidity? <==> state.Slot0?
  }

  predicate EmitsSwap(cfg: PairConfig, ev: SwapEvent)
  {
    cfg.model.ConcentratedLiquidity? <==> ev.SignedSwap?
  }

  /** `calculatePrice` of the configured page. */
  function DerivePrice(cfg: PairConfig, state: PoolState): (r: Num)
    requires ReadsState(cfg, state)
    ensures state.Slot0? && state.sqrtPriceX96 > 0 ==> r.Finite? && r.value > 0.0
    ensures state.Reserves? && state.reserve0 > 0 ==> r.Finite? && r.value >= 0.0
    ensures !r.Finite? ==> (state.Slot0? && state.sqrtPriceX96 == 0) || (state.Reserves? && state.reserve0 == 0)
  {
    match state
    case Slot0(s) => SqrtPriceX96Price(s, cfg.decimals0, cfg.decimals1, cfg.model.reciprocal)
    case Reserves(r0, r1) => ReservePrice(r0, r1, cfg.decimals0, cfg.decimals1)
  }

  /** The transaction record the configured page builds from a Swap event
      (for a reserve pool, with the intended zero test). */
  function Classify(cfg: PairConfig, ev: SwapEvent, id: string, timestamp: string): (t: Transaction)
    requires EmitsSwap(cfg, ev)
    ensures t.baseAmount >= 0.0 && t.quoteAmount >= 0.0
    ensures t.id == id && t.timestamp == timestamp
  {
    match ev
    case SignedSwap(a0, a1, _) =>
      ClassifySignedSwap(a0, a1, cfg.base, cfg.model.sideWhenBasePositive,
                         cfg.decimals0, cfg.decimals1, id, timestamp)
    case UnnettedSwap(a0In, a1In, a0Out, a1Out) =>
      ClassifyUnnettedSwap(a0In, a1In, a0Out, a1Out, cfg.decimals0, cfg.decimals1, id, timestamp)
  }

  // ---------------------------------------------------------------- instances

  /** ETH/USDC: token0 USDC (6 decimals), token1 WETH (18); USDC per ETH is
      the reciprocal; the side follows the ETH amount, amount1. */
  const EthUsdc := PairConfig("0x88e6A0c2dDD26FEEb64F039a2c41296FcB3f5640",
                              6, 18, ConcentratedLiquidity(true, Sell), Token1, "httpUrl", "wsUrl")

  /** WBTC/USDT: token0 WBTC (8), token1 USDT (6); no reciprocal. */
  const BtcUsdc := PairConfig("0x9Db9e0e53058C89e5B94e29621a205198648425B",
                              8, 6, ConcentratedLiquidity(false, Buy), Token0, "httpUrl", "wsUrl")

  /** WLD/USDC: token0 WLD (18), token1 USDC (6); the reciprocal line is
      commented out in the page, so none is applied. */
  const WldUsdc := PairConfig("0x610E319b3A3Ab56A0eD5562927D37c233774ba39",
                              18, 6, ConcentratedLiquidity(false, Sell), Token0, "httpUrlWld", "wsurlWld")

  /** VOW/USDT: a reserve pool, token0 VOW (18), token1 USDT (6). */
  const VowUsdc := PairConfig("0x1e49768714e438e789047f48fd386686a5707db2",
                              18, 6, ReservePair, Token0, "httpUrl", "wsUrl")

  /** The fields of the endpoint resolver's answer. */
  const ResolverFields: set<string> := {"httpUrl", "wsUrl", "httpUrlWld", "wsurlWld"}

  /** Every page finds both its endpoints in the resolver's answer; the
      WLD page reads its own pair of fields (with the lower-case `url` of
      `wsurlWld`), the other three share the default pair; and the four
      pages watch four different pools. */
  lemma EndpointsAndPools()
    ensures forall cfg :: cfg in {EthUsdc, BtcUsdc, WldUsdc, VowUsdc} ==>
              cfg.httpUrlField in ResolverFields && cfg.wsUrlField in ResolverFields
    ensures WldUsdc.httpUrlField == "httpUrlWld" && WldUsdc.wsUrlField == "wsurlWld"
    ensures forall cfg :: cfg in {EthUsdc, BtcUsdc, VowUsdc} ==>
              cfg.httpUrlField == "httpUrl" && cfg.wsUrlField == "wsUrl"
    ensures |{EthUsdc.poolAddress, BtcUsdc.poolAddress, WldUsdc.poolAddress, VowUsdc.poolAddress}| == 4
  {
  }

  /** ETH/USDC price: `2^192 * 10^12 / S^2`. */
  lemma EthPriceClosedForm(s: nat)
    requires s > 0
    ensures DerivePrice(EthUsdc, Slot0(s)) == Finite((Q192 * Pow10(12)) as real / (s * s) as real)
  {
  }

  /** The unguarded zero: the ETH page shows 1/0, Infinity. */
  lemma EthZeroSqrtPriceIsInfinite()
    ensures DerivePrice(EthUsdc, Slot0(0)) == PosInfinity
  {
  }

  /** S = 2^97 * 10^4 encodes 2500 USDC per ETH exactly. */
  lemma EthExamplePrice()
    ensures DerivePrice(EthUsdc, Slot0(2 * Q96 * 10000)) == Finite(2500.0)
  {
    var s := 2 * Q96 * 10000;
    EthPriceClosedForm(s);
    assert Pow10(12) == 1000000000000;
    assert s * s == Q192 * 400000000;
    assert (Q192 * Pow10(12)) as real / (s * s) as real == 2500.0 by {
      assert (Q192 * Pow10(12)) == 2500 * (s * s);
    }
  }

  /** WBTC/USDT price: `S^2 / 2^192 * 10^2`.  The page writes the exponent
      as `-(6 - 8)`, which is `8 - 6`. */
  lemma BtcPriceClosedForm(s: nat)
    ensures DerivePrice(BtcUsdc, Slot0(s)) == Finite((s * s * 100) as real / Q192 as real)
  {
    assert Scale10(-(6 - 8)) == Scale10(8 - 6) == 100.0;
    assert (s * s * 100) as real == (s * s) as real * 100.0;
  }

  /** WLD/USDC price: `S^2 / 2^192 * 10^12`. */
  lemma WldPriceClosedForm(s: nat)
    ensures DerivePrice(WldUsdc, Slot0(s)) == Finite((s * s * Pow10(12)) as real / Q192 as real)
  {
  }

  /** VOW/USDT price: `reserve1 / reserve0 * 10^12`. */
  lemma VowPriceClosedForm(r0: nat, r1: nat)
    requires r0 > 0
    ensures DerivePrice(VowUsdc, Reserves(r0, r1)) == Finite((r1 * Pow10(12)) as real / r0 as real)
  {
  }

  /** ETH/USDC swaps: SELL exactly when amount1 > 0 (zero counts as BUY);
      `ethAmount = |amount1| / 10^18`, `usdcAmount = |amount0| / 10^6`. */
  lemma EthSwapClassification(a0: int, a1: int, s: nat, id: string, ts: string)
    ensures var t := Classify(EthUsdc, SignedSwap(a0, a1, s), id, ts);
            (t.side == Sell <==> a1 > 0) &&
            t.baseAmount == Abs(a1) as real / Pow10(18) as real &&
            t.quoteAmount == Abs(a0) as real / Pow10(6) as real
  {
  }

  /** WBTC/USDT swaps: BUY exactly when amount0 > 0;
      `wbtcAmount = |amount0| / 10^8`, `usdtAmount = |amount1| / 10^6`. */
  lemma BtcSwapClassification(a0: int, a1: int, s: nat, id: string, ts: string)
    ensures var t := Classify(BtcUsdc, SignedSwap(a0, a1, s), id, ts);
            (t.side == Buy <==> a0 > 0) &&
            t.baseAmount == Abs(a0) as real / Pow10(8) as real &&
            t.quoteAmount == Abs(a1) as real / Pow10(6) as real
  {
  }

  /** WLD/USDC swaps: SELL exactly when amount0 > 0;
      `wldAmount = |amount0| / 10^18`, `usdcAmount = |amount1| / 10^6`. */
  lemma WldSwapClassification(a0: int, a1: int, s: nat, id: string, ts: string)
    ensures var t := Classify(WldUsdc, SignedSwap(a0, a1, s), id, ts);
            (t.side == Sell <==> a0 > 0) &&
            t.baseAmount == Abs(a0) as real / Pow10(18) as real &&
            t.quoteAmount == Abs(a1) as real / Pow10(6) as real
  {
  }

  /** The WBTC and WLD pages read the same event with opposite sign
      conventions: they never agree on the side. */
  lemma BtcWldOppositeConventions(a0: int, a1: int, s: nat, id: string, ts: string)
    ensures Classify(BtcUsdc, SignedSwap(a0, a1, s), id, ts).side
            == Opposite(Classify(WldUsdc, SignedSwap(a0, a1, s), id, ts).side)
  {
  }

  /** VOW/USDT swaps (with the intended zero test): BUY exactly when
      amount0In is 0; `vowAmount` is amount0Out / 10^18 then, else
      amount0In / 10^18; `usdtAmount` is amount1In / 10^6 then, else
      amount1Out / 10^6. */
  lemma VowSwapClassification(a0In: nat, a1In: nat, a0Out: nat, a1Out: nat, id: string, ts: string)
    ensures var t := Classify(VowUsdc, UnnettedSwap(a0In, a1In, a0Out, a1Out), id, ts);
            (t.side == Buy <==> a0In == 0) &&
            t.baseAmount == (if a0In == 0 then a0Out else a0In) as real / Pow10(18) as real &&
            t.quoteAmount == (if a0In == 0 then a1In else a1Out) as real / Pow10(6) as real
  {
  }
}
