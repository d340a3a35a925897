/** The two `calculatePrice` shapes of the price pages, over exact
    arithmetic: the Uniswap v3 Q64.96 square-root price (section 6.2.1 of
    the Uniswap v3 Core whitepaper) and the Uniswap v2 reserve ratio.  The
    square of the square-root price is an exact integer, as the pages'
    bigint multiplication is; only the final quotient becomes a number. */
module PriceMath {
  import opened JsNumber

  /** 2^96, the fixed-point scale of `sqrtPriceX96`. */
  const Q96: nat := 0x1_0000_0000_0000_0000_0000_0000
  /** 2^192, the scale of its square (`2n ** 192n` in the pages). */
  const Q192: nat := Q96 * Q96

  function Pow10(n: nat): (r: nat)
    ensures r >= 1
  {
    if n == 0 then 1 else 10 * Pow10(n - 1)
  }

  /** 10^e as an exact rational, for an exponent of either sign. */
  function Scale10(e: int): (r: real)
    ensures r > 0.0
    ensures e >= 0 ==> r == Pow10(e) as real
    ensures e <= 0 ==> r * Pow10(-e) as real == 1.0
  {
    if e >= 0 then Pow10(e) as real else 1.0 / Pow10(-e) as real
  }

  /** `S * S / 2^192 * 10^(d0 - d1)`: token1 per token0 in whole tokens. */
  function SqrtRatio(s: nat, d0: nat, d1: nat): (r: real)
    ensures r >= 0.0
    ensures r == 0.0 <==> s == 0
  {
    var square := s * s;
    assert s > 0 ==> square > 0 by {
      if s > 0 { MulPositive(s, s); }
    }
    square as real / Q192 as real * Scale10(d0 - d1)
  }

  /** `calculatePrice` of a concentrated-liquidity pool; `reciprocal`
      says whether the page returns `1 / price`.  There is no guard for
      `S = 0`: the inverted form then divides 1 by 0. */
  function SqrtPriceX96Price(s: nat, d0: nat, d1: nat, reciprocal: bool): (r: Num)
    ensures !reciprocal ==> r.Finite? && r.value >= 0.0 && (r.value == 0.0 <==> s == 0)
    ensures reciprocal ==> (r == PosInfinity <==> s == 0)
    ensures s > 0 ==> r.Finite? && r.value > 0.0
  {
    var price := Finite(SqrtRatio(s, d0, d1));
    if reciprocal then Reciprocal(price) else price
  }

  /** `calculatePrice` of a reserve pool: `reserve1 / reserve0 * 10^(d0 - d1)`.
      There is no guard for `reserve0 = 0`: the quotient is then Infinity,
      or NaN when both reserves are 0, and the scaling keeps it so. */
  function ReservePrice(r0: nat, r1: nat, d0: nat, d1: nat): (r: Num)
    ensures r0 > 0 ==> r.Finite? && r.value >= 0.0 && (r.value > 0.0 <==> r1 > 0)
    ensures r0 == 0 && r1 > 0 ==> r == PosInfinity
    ensures r0 == 0 && r1 == 0 ==> r == NotANumber
  {
    if r0 == 0 then (if r1 == 0 then NotANumber else PosInfinity)
    else Finite(r1 as real / r0 as real * Scale10(d0 - d1))
  }

  lemma MulPositive(a: nat, b: nat)
    requires a > 0 && b > 0
    ensures a * b > 0
  {
  }

  lemma MulStrictlyIncreasing(a: nat, b: nat)
    requires a < b
    ensures a * a < b * b
  {
  }

  /** The price read from a square-root-price pool rises strictly with S. */
  lemma SqrtPriceIncreasing(s: nat, t: nat, d0: nat, d1: nat)
    requires s < t
    ensures SqrtPriceX96Price(s, d0, d1, false).value < SqrtPriceX96Price(t, d0, d1, false).value
  {
    MulStrictlyIncreasing(s, t);
    var q := Q192 as real;
    var k := Scale10(d0 - d1);
    assert (s * s) as real < (t * t) as real;
    assert (s * s) as real / q < (t * t) as real / q;
    assert (s * s) as real / q * k < (t * t) as real / q * k;
    assert SqrtRatio(s, d0, d1) == (s * s) as real / q * k;
    assert SqrtRatio(t, d0, d1) == (t * t) as real / q * k;
  }

  /** Inverted, it falls strictly with S (for S > 0). */
  lemma SqrtPriceInvertedDecreasing(s: nat, t: nat, d0: nat, d1: nat)
    requires 0 < s < t
    ensures SqrtPriceX96Price(s, d0, d1, true).value > SqrtPriceX96Price(t, d0, d1, true).value
  {
    SqrtPriceIncreasing(s, t, d0, d1);
    var a := SqrtRatio(s, d0, d1);
    var b := SqrtRatio(t, d0, d1);
    assert 0.0 < a < b;
    assert 1.0 / a > 1.0 / b;
  }

  /** The inverted price is the reciprocal of the plain one. */
  lemma SqrtPriceReciprocity(s: nat, d0: nat, d1: nat)
    requires s > 0
    ensures SqrtPriceX96Price(s, d0, d1, true).value * SqrtPriceX96Price(s, d0, d1, false).value == 1.0
  {
  }

  /** Scaling both reserves by the same positive factor leaves the price
      unchanged, in the degenerate cases as well. */
  lemma ReservePriceScaleInvariant(r0: nat, r1: nat, k: nat, d0: nat, d1: nat)
    requires k > 0
    ensures ReservePrice(k * r0, k * r1, d0, d1) == ReservePrice(r0, r1, d0, d1)
  {
    if r0 > 0 {
      MulPositive(k, r0);
      assert (k * r1) as real / (k * r0) as real == r1 as real / r0 as real by {
        assert (k * r1) as real == k as real * r1 as real;
        assert (k * r0) as real == k as real * r0 as real;
      }
    } else if r1 > 0 {
      MulPositive(k, r1);
    }
  }

  /** The reserve price rises strictly with reserve1 and falls strictly
      with reserve0. */
  lemma ReservePriceMonotone(r0: nat, r1: nat, r0': nat, r1': nat, d0: nat, d1: nat)
    requires 0 < r0' <= r0 && r1 <= r1' && (r0' < r0 || r1 < r1') && r1' > 0
    ensures ReservePrice(r0, r1, d0, d1).value < ReservePrice(r0', r1', d0, d1).value
  {
    var k := Scale10(d0 - d1);
    var x := r1 as real / r0 as real;
    var y := r1' as real / r0' as real;
    assert x < y by {
      assert x * r0 as real == r1 as real;
      assert y * r0' as real == r1' as real;
    }
    assert x * k < y * k;
  }
}
