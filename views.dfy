/** What a price page shows in the states its session reaches: the
    session's price and error fed to the card's view selection. */
module PageViews {
  import opened Wrappers
  import opened JsNumber
  import opened PriceMath
  import opened Pairs
  import opened Session
  import opened Display

  function View(st: PageState): DisplayMode
  {
    Mode(st.error, st.price)
  }

  /** A mount whose fetch reads a non-zero square-root price and whose
      setup succeeds shows the price. */
  lemma FreshSqrtPriceShown(cfg: PairConfig, s: nat, now: int)
    requires cfg.model.ConcentratedLiquidity? && s > 0
    ensures View(Initialize(cfg, Initial, Some(Slot0(s)), true, now)) == PriceMode
  {
  }

  /** A failed initial fetch shows the error view. */
  lemma FailedFetchShowsError(cfg: PairConfig, connects: bool, now: int)
    ensures View(Initialize(cfg, Initial, None, connects, now)) == ErrorMode
  {
  }

  /** A setup failure after a successful fetch replaces the price it just
      obtained by the error view: the price is kept in state but not
      shown. */
  lemma SetupFailureHidesPrice(cfg: PairConfig, s: nat, now: int)
    requires cfg.model.ConcentratedLiquidity? && s > 0
    ensures var st := Initialize(cfg, Initial, Some(Slot0(s)), false, now);
            st.price.Some? && Truthy(st.price.value) && View(st) == ErrorMode
  {
  }

  /** A provider error hides a known price the same way, until a first
      `network` event clears the error. */
  lemma ProviderErrorHidesPrice(st: PageState)
    requires st.price.Some? && Truthy(st.price.value)
    ensures View(OnProviderError(st)) == ErrorMode
    ensures View(OnNetwork(OnProviderError(st), false)) == PriceMode
  {
  }

  /** S = 0 on the WBTC page gives price 0, shown as loading. */
  lemma BtcZeroPriceLoads(now: int)
    ensures View(Initialize(BtcUsdc, Initial, Some(Slot0(0)), true, now)) == LoadingMode
  {
  }

  /** S = 0 on the ETH page gives Infinity, which is truthy: the price view
      shows it. */
  lemma EthZeroPriceShowsInfinity(now: int)
    ensures var st := Initialize(EthUsdc, Initial, Some(Slot0(0)), true, now);
            st.price == Some(PosInfinity) && View(st) == PriceMode
  {
  }

  /** An empty VOW pool gives NaN, shown as loading; an empty reserve0
      alone gives Infinity, shown as a price. */
  lemma VowEmptyReserveViews(r1: nat, now: int)
    ensures View(Initialize(VowUsdc, Initial, Some(Reserves(0, 0)), true, now)) == LoadingMode
    ensures r1 > 0 ==> View(Initialize(VowUsdc, Initial, Some(Reserves(0, r1)), true, now)) == PriceMode
  {
  }
}
