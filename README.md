# pi-ticker price pages: a Dafny model

pi-ticker is a kiosk dashboard. It shows live spot prices for four token
pairs: ETH/USDC, WBTC/USDT, WLD/USDC and VOW/USDT. A carousel rotates
between them. Each pair page does three things:

- It reads the pool's state once over HTTP and derives a price.
- It opens a WebSocket to the node and follows Swap (and, for VOW, Sync)
  events. These events update the price and a list of the ten most
  recent transactions.
- It probes the connection every 30 s and reconnects 5 s after a
  failure.

The four pages are near-copies of each other. This model has one generic
engine, parameterised by a pair configuration (`Pairs.PairConfig`), with
four instances: `EthUsdc`, `BtcUsdc`, `WldUsdc` and `VowUsdc`.

Modules:

- `JsNumber`: a JavaScript number is modelled as an exact rational, or
  as the `Infinity`/`NaN` that an unguarded division yields. It also
  defines truthiness, `>` and `1/x`.
- `PriceMath`: the two `calculatePrice` shapes, over exact arithmetic.
  - The Uniswap v3 Q64.96 square-root price (section 6.2.1 of the
    Uniswap v3 Core whitepaper): `S²/2^192 · 10^(d0−d1)`, inverted on
    the ETH page only. `S²` is an exact integer, as the pages' bigint
    product is.
  - The Uniswap v2 reserve ratio: `reserve1/reserve0 · 10^(d0−d1)`.
- `Swaps`: turns a Swap event into a BUY/SELL record whose amounts are
  magnitudes. This module also holds the VOW handler as written (see
  Findings).
- `ActivityLog`: `[tx, ...prev].slice(0, 10)` and what it keeps over any
  run of arrivals.
- `Pairs`: the configuration, the four instances, and one lemma per
  instance that fixes that page's constants.
- `Session`: the page state and every handler as a transition function.
  - The handlers: initial fetch, WebSocket setup, `network`/`error`
    provider events, Swap/Sync events, probe tick, reconnect timer and
    cleanup.
  - `Run` takes a sequence of events. It skips any event that cannot be
    delivered in the state reached.
- `Pages`: class `PricePage`. The React state and the effect's closure
  variables are its fields. Its handler methods update those fields step
  by step. Each method is proved to make the corresponding `Session`
  transition.
- `Carousel`: the slider's state machine as functions, plus class
  `Slider` with one method per handler.
- `Display`: the ETH card's price-direction tracker (functions and class
  `DirectionTracker`) and its error/loading/price view selection.
- `PageViews`: what a page shows in the states its session reaches.

Foreign calls are inputs:

- `snapshot: Option<PoolState>` is what `slot0()`/`getReserves()`
  returned. `None` means the endpoint fetch, the provider or the call
  threw.
- `connects: bool` says whether `setupWebSocket` succeeded.
- `reachable: bool` says whether the probe's `getNetwork()` answered.
- The clock, `Date.now()`/`Math.random()` ids and ISO timestamps are
  plain parameters.

Timers are explicit events (`Probe`, `Reconnect`). Armed reconnect
timers are counted in `pendingReconnects`. Every connection ever opened
is kept, with flags for its provider, its listeners and its probe
interval.

The code leaves several cases unguarded, and the model keeps them as
written. Each is shown by a lemma:

- No page guards a zero square-root price or an empty reserve.
  - `Pairs.EthZeroSqrtPriceIsInfinite`: the ETH page computes `1/0`,
    which is Infinity.
  - `PageViews.EthZeroPriceShowsInfinity`: the ETH card shows that
    Infinity as a price.
  - `PageViews.VowEmptyReserveViews`: an empty VOW pool gives NaN.
- A failed probe clears only its own interval. The old provider and its
  listeners stay live, and the reconnect's result is dropped. So three
  failed probes, each followed by a successful reopen, leave four
  subscriptions (`Session.ThreeProbeFailuresLeaveFourListeners`).
- Cleanup does not cancel an armed reconnect. A reconnect that fires
  after cleanup opens a connection that no cleanup releases
  (`Session.ReconnectSurvivesCleanup`).
- The card's error view hides a known price. The price stays in state
  but is not shown (`PageViews.SetupFailureHidesPrice`,
  `PageViews.ProviderErrorHidesPrice`).
- The WBTC and WLD pages read the sign of amount0 with opposite
  conventions, and the model keeps each page's own rule
  (`Pairs.BtcWldOppositeConventions`).

## Model

| member | source | states |
|---|---|---|
| `JsNumber.Reciprocal` | app/token-prices/eth-usdc/page.tsx:33 | `1/x` of a non-negative number: the exact reciprocal for x > 0, Infinity for 0, 0 for Infinity, NaN for NaN |
| `PriceMath.SqrtRatio` | app/token-prices/eth-usdc/page.tsx:29-32 | `S²/2^192 · 10^(d0−d1)` is non-negative and zero exactly when S is 0 |
| `PriceMath.SqrtPriceX96Price` | app/token-prices/eth-usdc/page.tsx:24-44 | the square-root-price `calculatePrice`: finite and ≥ 0 without reciprocal (0 iff S = 0); with reciprocal Infinity iff S = 0; positive and finite for every S > 0 |
| `PriceMath.SqrtPriceIncreasing` | app/token-prices/btc-usdc/page.tsx:29-32 | without reciprocal the price rises strictly with S |
| `PriceMath.SqrtPriceInvertedDecreasing` | app/token-prices/eth-usdc/page.tsx:29-33 | with reciprocal the price falls strictly with S for S > 0 |
| `PriceMath.SqrtPriceReciprocity` | app/token-prices/eth-usdc/page.tsx:33 | for S > 0 the inverted price times the plain price is 1 |
| `PriceMath.ReservePrice` | app/token-prices/vow-usdc/page.tsx:24-43 | the reserve `calculatePrice`: finite, ≥ 0 and positive iff reserve1 > 0 when reserve0 > 0; Infinity when only reserve0 is 0; NaN when both are 0 |
| `PriceMath.ReservePriceScaleInvariant` | app/token-prices/vow-usdc/page.tsx:29 | multiplying both reserves by any k > 0 leaves the result unchanged, degenerate cases included |
| `PriceMath.ReservePriceMonotone` | app/token-prices/vow-usdc/page.tsx:29-31 | the price rises strictly with reserve1 and falls strictly with reserve0 |
| `Pairs.EndpointsAndPools` | app/token-prices/wld-usdc/page.tsx:65-95 | every page's endpoint fields are among those the resolver answers (app/api/rpc-url/route.ts:5-10); WLD reads `httpUrlWld`/`wsurlWld`, the others `httpUrl`/`wsUrl`; the four pool addresses are distinct |
| `Pairs.DerivePrice` | app/token-prices/eth-usdc/page.tsx:77 | the configured page's price of a pool state: positive for S > 0, finite for reserve0 > 0, non-finite only for S = 0 or reserve0 = 0 |
| `Pairs.EthPriceClosedForm` | app/token-prices/eth-usdc/page.tsx:24-44 | ETH/USDC with decimals 6/18 and the reciprocal: the price is exactly `2^192 · 10^12 / S²` for S > 0 |
| `Pairs.EthZeroSqrtPriceIsInfinite` | app/token-prices/eth-usdc/page.tsx:33 | S = 0 is unguarded: the ETH page's price is Infinity |
| `Pairs.EthExamplePrice` | app/token-prices/eth-usdc/page.tsx:29-43 | S = 2^97 · 10^4 gives exactly 2500 USDC per ETH |
| `Pairs.BtcPriceClosedForm` | app/token-prices/btc-usdc/page.tsx:23-43 | WBTC/USDT with decimals 8/6: the negated exponent `-(6−8)` makes the price `S² · 10^2 / 2^192`, with no reciprocal |
| `Pairs.WldPriceClosedForm` | app/token-prices/wld-usdc/page.tsx:23-43 | WLD/USDC with decimals 18/6 and the reciprocal commented out: the price is `S² · 10^12 / 2^192` |
| `Pairs.VowPriceClosedForm` | app/token-prices/vow-usdc/page.tsx:24-43 | VOW/USDT: the price is `reserve1 · 10^12 / reserve0` for reserve0 > 0 |
| `Pairs.Classify` | app/token-prices/eth-usdc/page.tsx:133-141 | the configured page's record of a Swap event has non-negative amounts and carries the given id and timestamp |
| `Pairs.EthSwapClassification` | app/token-prices/eth-usdc/page.tsx:133-141 | ETH page: SELL iff amount1 > 0 (a zero amount counts as BUY), ethAmount = \|amount1\|/10^18, usdcAmount = \|amount0\|/10^6 |
| `Pairs.BtcSwapClassification` | app/token-prices/btc-usdc/page.tsx:132-140 | WBTC page: BUY iff amount0 > 0, wbtcAmount = \|amount0\|/10^8, usdtAmount = \|amount1\|/10^6 |
| `Pairs.WldSwapClassification` | app/token-prices/wld-usdc/page.tsx:126-134 | WLD page: SELL iff amount0 > 0, wldAmount = \|amount0\|/10^18, usdcAmount = \|amount1\|/10^6 |
| `Pairs.BtcWldOppositeConventions` | app/token-prices/btc-usdc/page.tsx:136 | for every event the WBTC and WLD rules give opposite sides (WLD side at app/token-prices/wld-usdc/page.tsx:130) |
| `Pairs.VowSwapClassification` | app/token-prices/vow-usdc/page.tsx:138-144 | VOW page with the intended zero test: BUY iff amount0In = 0; vowAmount is amount0Out/10^18 then, else amount0In/10^18; usdtAmount is amount1In/10^6 then, else amount1Out/10^6 |
| `Swaps.Magnitude` | app/token-prices/eth-usdc/page.tsx:133-134 | `\|formatUnits(a, d)\|`: non-negative, times 10^d equals \|a\|, zero iff a = 0 |
| `Swaps.SignedSide` | app/token-prices/eth-usdc/page.tsx:137 | the configured side iff the base amount is strictly positive, the opposite side otherwise |
| `Swaps.ClassifySignedSwap` | app/token-prices/btc-usdc/page.tsx:132-140 | side decided by the sign of the base token's amount; base and quote magnitudes scaled by their own decimals; both ≥ 0 |
| `Swaps.ClassifyUnnettedSwap` | app/token-prices/vow-usdc/page.tsx:134-144 | BUY iff amount0In = 0; the base magnitude from amount0Out (BUY) or amount0In (SELL), the quote magnitude from amount1In (BUY) or amount1Out (SELL) |
| `Swaps.ClassifyUnnettedSwapAsWritten` | app/token-prices/vow-usdc/page.tsx:140-142 | as written, calling `.isZero()` on a bigint fails for every event |
| `ActivityLog.Record` | app/token-prices/eth-usdc/page.tsx:144-150 | length min(old + 1, 10), the new entry at index 0, the survivors in their old order behind it |
| `ActivityLog.RecordEvictsOldest` | app/token-prices/eth-usdc/page.tsx:145-148 | on a full list the result is the new entry followed by the nine newest old entries |
| `ActivityLog.RecordAllNewestFirst` | app/token-prices/eth-usdc/page.tsx:144-150 | after any run of arrivals the list is the arrivals newest first, then the old list, cut to 10 |
| `ActivityLog.RecordAllBounded` | app/token-prices/eth-usdc/page.tsx:53 | the list never exceeds `MAX_TRANSACTIONS` = 10 |
| `Session.FetchInitialPrice` | app/token-prices/eth-usdc/page.tsx:62-89 | returns true iff the read succeeded; connections, timers, the captured handle, the connection flag and transactions are untouched |
| `Session.SetupWebSocket` | app/token-prices/eth-usdc/page.tsx:91-173 | yields a handle iff the setup succeeded; price, lastUpdate, transactions and the captured handles are untouched; on success one live connection is appended and its index returned, while error, isConnected and timers stay as they were, so an earlier "Failed to connect to WebSocket" remains until a `network` event |
| `Session.Initialize` | app/token-prices/eth-usdc/page.tsx:180-197 | no contract of its own; `Session.SubscribeOnlyAfterFetch`, `Session.InitializeKeepsValid` and `Session.FailedFetchNeverConnects` state its properties |
| `Session.ReconnectFire` | app/token-prices/eth-usdc/page.tsx:161 | no contract of its own; `Session.ReconnectOutcome` and `Session.ReconnectSurvivesCleanup` state its properties |
| `Session.ProbeTick` | app/token-prices/eth-usdc/page.tsx:154-163 | no contract of its own; `Session.ProbeFailureArmsOneReconnect`, `Session.NoDuplicateReconnect` and `Session.ClearedProbeStaysCleared` state its properties |
| `Session.OnNetwork` | app/token-prices/eth-usdc/page.tsx:101-107 | no contract of its own; `Session.ConnectionEvents` states its properties |
| `Session.OnProviderError` | app/token-prices/eth-usdc/page.tsx:110-114 | no contract of its own; `Session.ConnectionEvents` and `PageViews.ProviderErrorHidesPrice` state its properties |
| `Session.OnSignedSwap` | app/token-prices/eth-usdc/page.tsx:121-151 | no contract of its own; `Session.SignedSwapEffect` states its properties |
| `Session.OnSync` | app/token-prices/vow-usdc/page.tsx:116-120 | no contract of its own; `Session.ReservePoolEvents` states its properties |
| `Session.OnUnnettedSwap` | app/token-prices/vow-usdc/page.tsx:122-155 | no contract of its own; `Session.ReservePoolEvents` and `Session.IsZeroFaultDropsEverySwap` state its properties |
| `Session.OnUnnettedSwapAsWritten` | app/token-prices/vow-usdc/page.tsx:138-153 | no contract of its own; `Session.IsZeroFaultDropsEverySwap` states that it changes nothing |
| `Session.Cleanup` | app/token-prices/eth-usdc/page.tsx:202-213 | no contract of its own; `Session.CleanupReleasesCaptured` and `Session.ReconnectSurvivesCleanup` state its properties |
| `Session.Step` | app/token-prices/eth-usdc/page.tsx:101-213 | no contract of its own; dispatches one delivered event to its handler; `Session.StepKeepsValid` states the invariant it keeps |
| `Session.Run` | app/token-prices/eth-usdc/page.tsx:101-213 | no contract of its own; `Session.RunKeepsValid`, `Session.FailedFetchNeverConnects`, `Session.ClearedProbeStaysCleared` and `Session.FailReopenRoundsAccumulate` state its properties |
| `Session.FetchInitialPriceOutcome` | app/token-prices/eth-usdc/page.tsx:80-87 | success sets the price from the pool state, refreshes lastUpdate and clears the error; failure sets "Failed to fetch initial price" and leaves price and lastUpdate unchanged |
| `Session.SubscribeOnlyAfterFetch` | app/token-prices/eth-usdc/page.tsx:180-197 | a connection is opened iff the fetch and the setup succeed, a reconnect is armed iff the fetch succeeds and the setup fails, the first setup's handle is captured, a failed fetch captures nothing and leaves isConnected |
| `Session.FailedFetchNeverConnects` | app/token-prices/btc-usdc/page.tsx:178-195 | after a failed initial fetch no event sequence changes the state: the page is never connected and keeps the fetch error |
| `Session.SetupFailureArmsOneReconnect` | app/token-prices/btc-usdc/page.tsx:164-170 | a failed setup shows "Failed to connect to WebSocket", sets isConnected false, arms exactly one reconnect and opens nothing |
| `Session.ProbeFailureArmsOneReconnect` | app/token-prices/eth-usdc/page.tsx:154-163 | a failed probe arms exactly one reconnect and clears its interval, but the provider stays live and the listeners attached; a successful probe changes nothing |
| `Session.NoDuplicateReconnect` | app/token-prices/wld-usdc/page.tsx:145-154 | no tick is delivered after its interval is cleared: a second tick of a failed interval is not delivered, and after any later run of events that interval is still cleared |
| `Session.ClearedProbeStaysCleared` | app/token-prices/eth-usdc/page.tsx:154-163 | over any run of events a cleared interval stays cleared and its connection stays in the list |
| `Session.ReconnectOutcome` | app/token-prices/eth-usdc/page.tsx:161 | a reconnect that connects adds one listening connection and does not capture it; one that fails re-arms itself |
| `Session.ConnectionEvents` | app/token-prices/eth-usdc/page.tsx:101-114 | `network` without oldNetwork sets isConnected and clears the error, with oldNetwork changes nothing; `error` sets isConnected false and "Connection error occurred"; neither touches the price, the list, the connections, the timers or the captured handle |
| `Session.SignedSwapEffect` | app/token-prices/eth-usdc/page.tsx:121-151 | a Swap sets the price from the event's sqrtPriceX96, refreshes lastUpdate, puts its record first in the list (bounded, order kept) and changes no connection, error, flag, timer or captured handle |
| `Session.ReservePoolEvents` | app/token-prices/vow-usdc/page.tsx:116-155 | Sync changes only price and lastUpdate, not the list; a VOW Swap changes only the list, putting its record first |
| `Session.IsZeroFaultDropsEverySwap` | app/token-prices/vow-usdc/page.tsx:138-153 | as written the VOW Swap handler leaves the state unchanged, while the intended one records the swap first |
| `Session.CleanupReleasesCaptured` | app/token-prices/eth-usdc/page.tsx:202-213 | cleanup releases the captured connection's interval, listeners and provider, touches no other connection or timer, and is idempotent |
| `Session.ReconnectSurvivesCleanup` | app/token-prices/eth-usdc/page.tsx:154-213 | a reconnect armed before cleanup still opens a live, listening, probing connection afterwards, and the captured handles stay those of the first setup |
| `Session.StepKeepsValid` | app/token-prices/eth-usdc/page.tsx:144-150 | every delivered event keeps the list length ≤ 10 and the captured handle pointing at a connection |
| `Session.InitializeKeepsValid` | app/token-prices/eth-usdc/page.tsx:180-197 | initialization keeps the same invariant |
| `Session.RunKeepsValid` | app/token-prices/eth-usdc/page.tsx:144-150 | over any event sequence the page never holds more than 10 transactions |
| `Session.FailReopenRound` | app/token-prices/eth-usdc/page.tsx:154-173 | one failed probe followed by a successful reconnect adds one listening connection, leaves the timer count and the captured handle |
| `Session.FailReopenRoundsAccumulate` | app/token-prices/eth-usdc/page.tsx:154-173 | n such rounds add n listening connections and no armed timer |
| `Session.ThreeProbeFailuresLeaveFourListeners` | app/token-prices/eth-usdc/page.tsx:117-173 | from a fresh successful mount, three failed probes each followed by a successful reopen leave four listening connections, no armed timer, and cleanup still aimed at the first |
| `Pages.PricePage.constructor` | app/token-prices/eth-usdc/page.tsx:56-60 | the mount state: no price, error or lastUpdate, disconnected, empty list, no connections, no timers |
| `Pages.PricePage.FetchInitialPrice` | app/token-prices/eth-usdc/page.tsx:62-89 | makes the `Session.FetchInitialPrice` transition and returns its result |
| `Pages.PricePage.SetupWebSocket` | app/token-prices/eth-usdc/page.tsx:91-173 | makes the `Session.SetupWebSocket` transition and returns the handle |
| `Pages.PricePage.Initialize` | app/token-prices/eth-usdc/page.tsx:180-197 | fetch, then set up only on success, then capture the handles: `Session.Initialize` |
| `Pages.PricePage.OnReconnectTimer` | app/token-prices/eth-usdc/page.tsx:161 | consumes one armed timer and reruns the setup, dropping its result: `Session.ReconnectFire` |
| `Pages.PricePage.OnProbeTick` | app/token-prices/eth-usdc/page.tsx:154-163 | `Session.ProbeTick` |
| `Pages.PricePage.OnNetwork` | app/token-prices/eth-usdc/page.tsx:101-107 | `Session.OnNetwork` |
| `Pages.PricePage.OnProviderError` | app/token-prices/eth-usdc/page.tsx:110-114 | `Session.OnProviderError` |
| `Pages.PricePage.OnSwap` | app/token-prices/eth-usdc/page.tsx:121-151 | `Session.OnSignedSwap` for a concentrated pool, `Session.OnUnnettedSwap` for the reserve pool |
| `Pages.PricePage.OnUnnettedSwapAsWritten` | app/token-prices/vow-usdc/page.tsx:122-155 | the VOW Swap handler as written: `Session.OnUnnettedSwapAsWritten`, no state change |
| `Pages.PricePage.OnSync` | app/token-prices/vow-usdc/page.tsx:116-120 | `Session.OnSync` |
| `Pages.PricePage.Cleanup` | app/token-prices/eth-usdc/page.tsx:202-213 | clears the interval, removes the listeners and destroys the provider of the captured connection only: `Session.Cleanup` |
| `Carousel.NextIndex` | app/components/PriceSlider.tsx:31-33 | `(i+1) mod n` stays in [0, n), is i+1 below the last page and 0 on it |
| `Carousel.PreviousIndex` | app/components/PriceSlider.tsx:35-39 | stays in [0, n), maps 0 to n−1 and any other i to i−1 |
| `Carousel.NextPreviousInverse` | app/components/PriceSlider.tsx:31-39 | next(previous(i)) = i and previous(next(i)) = i |
| `Carousel.Advance` | app/components/PriceSlider.tsx:41-45 | k autoplay steps stay in range |
| `Carousel.AdvanceCounts` | app/components/PriceSlider.tsx:41-45 | below the last page k steps move the index by exactly k |
| `Carousel.AdvanceCompose` | app/components/PriceSlider.tsx:41-45 | a + b steps are a steps and then b more |
| `Carousel.FullRotation` | app/components/PriceSlider.tsx:31-33 | n steps bring the carousel back to the same page |
| `Carousel.AdvancePeriodic` | app/components/PriceSlider.tsx:41-45 | autoplay is periodic with period n |
| `Carousel.AutoplayTick` | app/components/PriceSlider.tsx:41-45 | no contract of its own; `Carousel.AutoplayAdvancesOnlyWhilePlaying` states its properties |
| `Carousel.DragStart` | app/components/PriceSlider.tsx:47-66 | no contract of its own; `Carousel.PressAndMove`, `Carousel.StalePositionTurnsPage` and `Carousel.PauseButtonResumes` state its properties |
| `Carousel.DragMove` | app/components/PriceSlider.tsx:54-76 | no contract of its own; `Carousel.PressAndMove` states its properties |
| `Carousel.DragEnd` | app/components/PriceSlider.tsx:77-103 | no contract of its own; `Carousel.SwipeRule` and `Carousel.PageTurnsOnlyOnSwipe` state its properties |
| `Carousel.TogglePlay` | app/components/PriceSlider.tsx:159 | no contract of its own; `Carousel.ControlsEffect` and `Carousel.PauseButtonResumes` state its properties |
| `Carousel.DotClick` | app/components/PriceSlider.tsx:180-183 | no contract of its own; `Carousel.ControlsEffect` states its properties |
| `Carousel.AutoplayAdvancesOnlyWhilePlaying` | app/components/PriceSlider.tsx:41-45 | a tick moves to the next page while playing and changes nothing otherwise |
| `Carousel.PressAndMove` | app/components/PriceSlider.tsx:47-76 | a press pauses, starts dragging at x and zeroes the offset, keeping index and currentPosition; a move is ignored unless dragging, else sets currentPosition and offset = start − x |
| `Carousel.SwipeRule` | app/components/PriceSlider.tsx:77-103 | a release when not dragging is a no-op; otherwise it ends the drag and zeroes the offset; it goes next for a distance ≥ 50, previous for ≤ −50, only when both positions are non-zero, and only then resets them |
| `Carousel.PageTurnsOnlyOnSwipe` | app/components/PriceSlider.tsx:81-98 | with at least two pages a release changes the page iff dragging, both positions non-zero and \|distance\| ≥ 50 |
| `Carousel.StalePositionTurnsPage` | app/components/PriceSlider.tsx:47-102 | a press does not reset currentPosition: after a short drag, a press released without moving turns the page |
| `Carousel.PauseButtonResumes` | app/components/PriceSlider.tsx:61-66 | with the mouse, pressing the pause button pauses and its click resumes, so autoplay ends up playing |
| `Carousel.ControlsEffect` | app/components/PriceSlider.tsx:159-183 | a dot click selects that page and pauses; the button toggles isPlaying |
| `Carousel.Slider.constructor` | app/components/PriceSlider.tsx:24-29 | index 0, playing, positions and offset 0, not dragging |
| `Carousel.Slider.HandleNext` | app/components/PriceSlider.tsx:31-33 | the index becomes `NextIndex`, nothing else changes |
| `Carousel.Slider.HandlePrevious` | app/components/PriceSlider.tsx:35-39 | the index becomes `PreviousIndex`, nothing else changes |
| `Carousel.Slider.OnAutoplayTick` | app/components/PriceSlider.tsx:41-45 | `Carousel.AutoplayTick` |
| `Carousel.Slider.OnDragStart` | app/components/PriceSlider.tsx:47-66 | `Carousel.DragStart` (touch start and mouse down) |
| `Carousel.Slider.OnDragMove` | app/components/PriceSlider.tsx:54-76 | `Carousel.DragMove` (touch move and mouse move) |
| `Carousel.Slider.OnDragEnd` | app/components/PriceSlider.tsx:77-103 | `Carousel.DragEnd` |
| `Carousel.Slider.OnTogglePlay` | app/components/PriceSlider.tsx:159 | `Carousel.TogglePlay` |
| `Carousel.Slider.OnDotClick` | app/components/PriceSlider.tsx:180-183 | `Carousel.DotClick` |
| `Display.PriceEffect` | app/components/eth/PriceDisplay.tsx:44-49 | previousPrice becomes the new price (null included); with both prices known the direction is set, "up" iff price > previous; otherwise it is kept |
| `Display.Render` | app/components/eth/PriceDisplay.tsx:44-49 | no contract of its own; `Display.RenderDirection` states its properties |
| `Display.EqualPricesReadAsDown` | app/components/eth/PriceDisplay.tsx:46 | the effect body reads equal prices as "down" |
| `Display.RenderDirection` | app/components/eth/PriceDisplay.tsx:44-49 | through React's dependency check the direction changes only when the price changed and both are known, and then is "up" iff price > previous |
| `Display.Mode` | app/components/eth/PriceDisplay.tsx:57-102 | error view iff the error is non-empty; otherwise loading iff the price is null, 0 or NaN; otherwise the price view |
| `Display.ModePriority` | app/components/eth/PriceDisplay.tsx:57-68 | a non-empty error hides a known price, 0 and NaN load, an empty error string counts as none, Infinity shows as a price |
| `Display.RecoveryHint` | app/components/eth/PriceDisplay.tsx:62-64 | "Attempting to recover..." iff connected, "Attempting to reconnect..." iff not |
| `Display.StatusLabel` | app/components/eth/PriceDisplay.tsx:127 | "(Live)" iff connected, "(Reconnecting...)" iff not |
| `Display.ShowsTransactions` | app/components/eth/PriceDisplay.tsx:135 | the table is shown iff the list is non-empty, whatever the view |
| `Display.DirectionTracker.constructor` | app/components/eth/PriceDisplay.tsx:40-43 | no previous price, no direction |
| `Display.DirectionTracker.RunEffect` | app/components/eth/PriceDisplay.tsx:44-49 | `Display.PriceEffect` |
| `Display.DirectionTracker.OnRender` | app/components/eth/PriceDisplay.tsx:44-49 | `Display.Render`: runs the effect only when the price changed |
| `PageViews.View` | app/components/eth/PriceDisplay.tsx:57-102 | no contract of its own; the card's view of a page state, whose properties are the lemmas below |
| `PageViews.FreshSqrtPriceShown` | app/components/eth/PriceDisplay.tsx:57-102 | a mount that reads S > 0 and connects shows the price view |
| `PageViews.FailedFetchShowsError` | app/token-prices/eth-usdc/page.tsx:84-87 | a mount whose fetch fails shows the error view |
| `PageViews.SetupFailureHidesPrice` | app/token-prices/eth-usdc/page.tsx:166-171 | a setup failure after a successful fetch keeps a truthy price in state but shows the error view |
| `PageViews.ProviderErrorHidesPrice` | app/token-prices/eth-usdc/page.tsx:101-114 | a provider error hides a known price until a first `network` event clears the error |
| `PageViews.BtcZeroPriceLoads` | app/token-prices/btc-usdc/page.tsx:29-32 | S = 0 on the WBTC page gives 0, shown as loading |
| `PageViews.EthZeroPriceShowsInfinity` | app/token-prices/eth-usdc/page.tsx:33 | S = 0 on the ETH page stores Infinity, which the card shows as a price |
| `PageViews.VowEmptyReserveViews` | app/token-prices/vow-usdc/page.tsx:29 | reserves (0, 0) give NaN, shown as loading; (0, r1 > 0) gives Infinity, shown as a price |

## Left out

- Floating point: `Number(...)`, `Math.pow`, `formatUnits`/`formatEther` followed by `Number`, `toLocaleString` and `toFixed`. Values are exact rationals; double rounding, and `1/x` of a price that underflows, are not modelled.
- Integer widths: `uint160`, `uint112` and `int256` bounds are not imposed. `S²` stays below 2^320, so its conversion to a double is finite and nothing is lost by this.
- Provider and contract plumbing: `fetch("/api/rpc-url")`, `JsonRpcProvider`, `WebSocketProvider`, `Contract` and ABI decoding are foreign calls. Their outcomes are inputs. The endpoint field names the pages read are kept as configuration only.
- Session.SetupWebSocket: a setup failure is one flag, taken to strike before any handle exists. A throw after `new WebSocketProvider` would also leak that provider; this is not modelled.
- Session.NoDuplicateReconnect / Session.ProbeTick: a probe tick is taken to settle before the next tick fires and before cleanup runs. In the code the interval callback awaits `getNetwork()` and clears the interval only when that rejects. A `getNetwork()` slower than 30 s lets a second tick start, and each tick that throws arms its own reconnect. A tick still waiting when cleanup runs can also arm a reconnect after unmount. The model captures neither.
- Async ordering: `initialize` runs to completion before any other event. A cleanup while the initial fetch is still in flight, which then leaks the first setup's handles, is not modelled. Neither is a second run of the effect.
- React drops state updates on an unmounted component. The model keeps applying them to its fields, where nobody reads them.
- Display.Render: React compares dependencies with `Object.is`, which tells `+0` from `-0`. The model's exact numbers have one zero.
- Carousel.Slider.constructor: an empty page list (the index would become `NaN`) is excluded by `pages > 0`. Pointer and touch coordinates are exact reals.
- PageViews.View: the WLD and VOW pages render their own cards, app/components/wld/PriceDisplay.tsx and app/components/vow/PriceDisplay.tsx, which are not part of this model. They are assumed to choose the error, loading or price view with the same test as the ETH card. The WBTC card at app/components/wbtc/PriceDisplay.tsx:39-48 uses that test.
- PageViews.VowEmptyReserveViews: the NaN and Infinity prices follow from the VOW page itself. "Loading" and "price" rest on the assumption above about the VOW card.
- PageViews.FreshSqrtPriceShown, PageViews.FailedFetchShowsError, PageViews.SetupFailureHidesPrice, PageViews.ProviderErrorHidesPrice: for the WLD and VOW pages these rest on the same assumption about their cards.
- Timer durations: the 5 s reconnect delay, the 30 s probe interval and the 2 s autoplay interval are not modelled. Timers fire as explicit events, in any order the run gives them.
- The window listener wiring of the slider, all JSX rendering, and console logging.
- app/page.tsx, app/api/eth-price/route.ts and app/api/rpc-url/route.ts: an HTTP poll loop and thin wrappers over an external API and environment variables.
- app/components/PriceDisplay.tsx and app/components/wbtc/PriceDisplay.tsx: markup around the same error/loading/price choice that `Display.Mode` models.

## Findings

| source | as written | input that shows it | evidently intended | confidence | as-written member | corrected member |
|---|---|---|---|---|---|---|
| app/token-prices/vow-usdc/page.tsx:140-142 | `amount0In.isZero()` on a decoded `uint`, which the top-level-`WebSocketProvider` ethers generation delivers as `bigint`; `bigint` has no `isZero`, so the handler throws before `setTransactions` | any VOW Swap event, e.g. amount0In = 0, amount1In = 10^6, amount0Out = 5·10^18, amount1Out = 0: no row is ever recorded | `amount0In == 0n`: BUY iff nothing of token0 went in, magnitudes taken accordingly | not executed; high | `Session.IsZeroFaultDropsEverySwap` | `Swaps.ClassifyUnnettedSwap` |
