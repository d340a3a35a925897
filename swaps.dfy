/** Turning a pool's Swap event into a BUY/SELL transaction record whose
    amounts are non-negative magnitudes in whole tokens
    (`Math.abs(Number(formatUnits(amount, decimals)))`, kept exact). */
module Swaps {
  import opened Wrappers
  import opened PriceMath

  datatype Side = Buy | Sell

  datatype Token = Token0 | Token1

  /** One row of a page's recent-transactions list.  `id` and `timestamp`
      come from `Date.now()`, `Math.random()` and the clock, so they are
      inputs here. */
  datatype Transaction = Transaction(
    id: string,
    side: Side,
    baseAmount: real,
    quoteAmount: real,
    timestamp: string)

  function Opposite(side: Side): Side
  {
    match side
    case Buy => Sell
    case Sell => Buy
  }

  function Abs(a: int): (r: nat)
    ensures r == a || r == -a
  {
    if a < 0 then -a else a
  }

  /** `|amount| / 10^decimals`: raw units scaled down to whole tokens. */
  function Magnitude(amount: int, decimals: nat): (m: real)
    ensures m >= 0.0
    ensures m * Pow10(decimals) as real == Abs(amount) as real
    ensures m == 0.0 <==> amount == 0
  {
    Abs(amount) as real / Pow10(decimals) as real
  }

  /** The side of a concentrated-liquidity swap: `whenPositive` when the
      signed base-token amount is strictly positive, the other side
      otherwise (so a zero amount takes the other side). */
  function SignedSide(baseAmount: int, whenPositive: Side): (side: Side)
    ensures side == whenPositive <==> baseAmount > 0
    ensures side == Opposite(whenPositive) <==> baseAmount <= 0
  {
    if baseAmount > 0 then whenPositive else Opposite(whenPositive)
  }

  /** The transaction record of a concentrated-liquidity Swap event with
      signed `amount0`/`amount1`; `base` names the token the page reports
      first and whose sign decides the side. */
  function ClassifySignedSwap(amount0: int, amount1: int, base: Token, whenPositive: Side,
                              decimals0: nat, decimals1: nat, id: string, timestamp: string): (t: Transaction)
    ensures var baseRaw := if base == Token0 then amount0 else amount1;
            t.side == whenPositive <==> baseRaw > 0
    ensures t.baseAmount >= 0.0 && t.quoteAmount >= 0.0
    ensures base == Token0 ==>
              t.baseAmount * Pow10(decimals0) as real == Abs(amount0) as real &&
              t.quoteAmount * Pow10(decimals1) as real == Abs(amount1) as real
    ensures base == Token1 ==>
              t.baseAmount * Pow10(decimals1) as real == Abs(amount1) as real &&
              t.quoteAmount * Pow10(decimals0) as real == Abs(amount0) as real
    ensures t.id == id && t.timestamp == timestamp
  {
    var m0 := Magnitude(amount0, decimals0);
    var m1 := Magnitude(amount1, decimals1);
    match base
    case Token0 => Transaction(id, SignedSide(amount0, whenPositive), m0, m1, timestamp)
    case Token1 => Transaction(id, SignedSide(amount1, whenPositive), m1, m0, timestamp)
  }

  /** The transaction record of a reserve-pool Swap event with the four
      unnetted amounts, token0 being the base token: BUY exactly when
      nothing of token0 went in; the base amount is then what came out and
      the quote amount what went in, and the other way round for a SELL.
      This is the comparison with zero the page evidently intends; see
      `ClassifyUnnettedSwapAsWritten` for what its code does. */
  function ClassifyUnnettedSwap(amount0In: nat, amount1In: nat, amount0Out: nat, amount1Out: nat,
                                decimals0: nat, decimals1: nat, id: string, timestamp: string): (t: Transaction)
    ensures t.side == Buy <==> amount0In == 0
    ensures t.baseAmount >= 0.0 && t.quoteAmount >= 0.0
    ensures amount0In == 0 ==>
              t.baseAmount * Pow10(decimals0) as real == amount0Out as real &&
              t.quoteAmount * Pow10(decimals1) as real == amount1In as real
    ensures amount0In != 0 ==>
              t.baseAmount * Pow10(decimals0) as real == amount0In as real &&
              t.quoteAmount * Pow10(decimals1) as real == amount1Out as real
    ensures t.id == id && t.timestamp == timestamp
  {
    var bought := amount0In == 0;
    Transaction(
      id,
      if bought then Buy else Sell,
      if bought then Magnitude(amount0Out, decimals0) else Magnitude(amount0In, decimals0),
      if bought then Magnitude(amount1In, decimals1) else Magnitude(amount1Out, decimals1),
      timestamp)
  }

  /** What a JavaScript handler that throws reports instead of a value. */
  datatype ScriptFault = IsZeroIsNotAFunction

  /** The reserve-pool Swap handler's classification as written: it calls
      `amount0In.isZero()`, but the event decoder delivers `uint` fields as
      `bigint`, which has no `isZero` method, so building the record throws
      a TypeError for every event, whatever its amounts. */
  function ClassifyUnnettedSwapAsWritten(amount0In: nat, amount1In: nat, amount0Out: nat, amount1Out: nat,
                                         decimals0: nat, decimals1: nat, id: string,
                                         timestamp: string): (r: Result<Transaction, ScriptFault>)
    ensures r.Failure?
  {
    Failure(IsZeroIsNotAFunction)
  }
}
