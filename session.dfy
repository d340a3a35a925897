/** The state of one price page and the transitions its handlers make:
    the initial fetch, the WebSocket setup, the provider's `network` and
    `error` events, the pool's Swap and Sync events, the 30 s liveness
    probe, the 5 s reconnect timer and the effect's cleanup.  Timers are
    explicit events; what a foreign call returned is an input. */
module Session {
  import opened Wrappers
  import opened JsNumber
  import opened Swaps
  import opened ActivityLog
  import opened Pairs

  const FetchFailedMessage: string := "Failed to fetch initial price"
  const SetupFailedMessage: string := "Failed to connect to WebSocket"
  const ProviderErrorMessage: string := "Connection error occurred"

  /** What one successful `setupWebSocket` created: a WebSocket provider
      (live until destroyed), the pool contract's listeners, and the probe
      interval. */
  datatype Connection = Connection(providerLive: bool, listening: bool, probing: bool)

  const Opened := Connection(true, true, true)
  const Released := Connection(false, false, false)

  /** The page's React state (`price`, `lastUpdate`, `error`,
      `isConnected`, `transactions`), every connection ever opened (oldest
      first), the connection whose handles the effect's closure captured,
      and the number of armed reconnect timers. */
  datatype PageState = PageState(
    price: Option<Num>,
    lastUpdate: Option<int>,
    error: Option<string>,
    isConnected: bool,
    transactions: seq<Transaction>,
    connections: seq<Connection>,
    captured: Option<nat>,
    pendingReconnects: nat)

  /** The state on mount. */
  const Initial := PageState(None, None, None, false, [], [], None, 0)

  ghost predicate Valid(st: PageState)
  {
    && |st.transactions| <= MaxTransactions
    && (st.captured.Some? ==> st.captured.value < |st.connections|)
  }

  /** How many connections still deliver pool events to the page. */
  function ListeningCount(cs: seq<Connection>): (n: nat)
    ensures n <= |cs|
  {
    if cs == [] then 0 else ListeningCount(cs[..|cs| - 1]) + (if cs[|cs| - 1].listening then 1 else 0)
  }

  // ------------------------------------------------------------ transitions

  /** `fetchInitialPrice`: `snapshot` is the pool state the one-shot read
      returned, or None when resolving the endpoint, the provider or the
      contract call threw.  The Boolean is the function's return value. */
  function FetchInitialPrice(cfg: PairConfig, st: PageState, snapshot: Option<PoolState>, now: int): (r: (PageState, bool))
    requires snapshot.Some? ==> ReadsState(cfg, snapshot.value)
    ensures r.1 <==> snapshot.Some?
    ensures r.0.connections == st.connections && r.0.pendingReconnects == st.pendingReconnects
    ensures r.0.isConnected == st.isConnected && r.0.transactions == st.transactions
    ensures r.0.captured == st.captured
  {
    match snapshot
    case Some(state) =>
      (st.(price := Some(DerivePrice(cfg, state)), lastUpdate := Some(now), error := None), true)
    case None =>
      (st.(error := Some(FetchFailedMessage)), false)
  }

  /** `setupWebSocket`: `connects` says whether every step of the setup
      succeeded; on success the new connection's index is returned, on
      failure the error is shown and one reconnect is armed. */
  function SetupWebSocket(st: PageState, connects: bool): (r: (PageState, Option<nat>))
    ensures connects <==> r.1.Some?
    ensures r.0.price == st.price && r.0.lastUpdate == st.lastUpdate
    ensures r.0.transactions == st.transactions && r.0.captured == st.captured
    ensures connects ==>
              r.1 == Some(|st.connections|) && r.0.connections == st.connections + [Opened] &&
              r.0.error == st.error && r.0.isConnected == st.isConnected &&
              r.0.pendingReconnects == st.pendingReconnects
  {
    if connects then
      (st.(connections := st.connections + [Opened]), Some(|st.connections|))
    else
      (st.(error := Some(SetupFailedMessage), isConnected := false,
           pendingReconnects := st.pendingReconnects + 1), None)
  }

  /** `initialize`: fetch first, set the WebSocket up only if that
      succeeded, and capture the handles of that first setup. */
  function Initialize(cfg: PairConfig, st: PageState, snapshot: Option<PoolState>, connects: bool, now: int): PageState
    requires snapshot.Some? ==> ReadsState(cfg, snapshot.value)
  {
    var (st1, fetched) := FetchInitialPrice(cfg, st, snapshot, now);
    if !fetched then st1
    else
      var (st2, handle) := SetupWebSocket(st1, connects);
      if handle.Some? then st2.(captured := handle) else st2
  }

  /** The reconnect timer fires: it runs `setupWebSocket` again and drops
      what that returns. */
  function ReconnectFire(st: PageState, connects: bool): PageState
    requires st.pendingReconnects > 0
  {
    SetupWebSocket(st.(pendingReconnects := st.pendingReconnects - 1), connects).0
  }

  /** The probe interval of connection `i` fires and `getNetwork()`
      answers (`reachable`) or throws.  On a throw the interval clears
      itself and arms one reconnect; the old provider and its listeners
      stay as they are. */
  function ProbeTick(st: PageState, i: nat, reachable: bool): PageState
    requires i < |st.connections| && st.connections[i].probing
  {
    if reachable then st
    else
      st.(connections := st.connections[i := st.connections[i].(probing := false)],
          pendingReconnects := st.pendingReconnects + 1)
  }

  /** The provider's `network` event: only the first connection to a
      network (no `oldNetwork`) marks the page connected. */
  function OnNetwork(st: PageState, hasOldNetwork: bool): PageState
  {
    if hasOldNetwork then st else st.(isConnected := true, error := None)
  }

  /** The provider's `error` event. */
  function OnProviderError(st: PageState): PageState
  {
    st.(isConnected := false, error := Some(ProviderErrorMessage))
  }

  /** A Swap event on a concentrated-liquidity pool: the price comes from
      the event's `sqrtPriceX96`, `lastUpdate` is refreshed and the
      transaction goes in front of the list. */
  function OnSignedSwap(cfg: PairConfig, st: PageState, ev: SwapEvent, now: int, id: string, timestamp: string): PageState
    requires cfg.model.ConcentratedLiquidity? && ev.SignedSwap?
  {
    st.(price := Some(DerivePrice(cfg, Slot0(ev.sqrtPriceX96))),
        lastUpdate := Some(now),
        transactions := Record(st.transactions, Classify(cfg, ev, id, timestamp)))
  }

  /** A Sync event on a reserve pool: price and `lastUpdate` only. */
  function OnSync(cfg: PairConfig, st: PageState, r0: nat, r1: nat, now: int): PageState
    requires cfg.model.ReservePair?
  {
    st.(price := Some(DerivePrice(cfg, Reserves(r0, r1))), lastUpdate := Some(now))
  }

  /** A Swap event on a reserve pool, with the intended zero test: only
      the transaction list changes. */
  function OnUnnettedSwap(cfg: PairConfig, st: PageState, ev: SwapEvent, id: string, timestamp: string): PageState
    requires cfg.model.ReservePair? && ev.UnnettedSwap?
  {
    st.(transactions := Record(st.transactions, Classify(cfg, ev, id, timestamp)))
  }

  /** The same handler as written: the record cannot be built
      (`ClassifyUnnettedSwapAsWritten`), the handler throws before any
      state setter runs, and nothing changes. */
  function OnUnnettedSwapAsWritten(cfg: PairConfig, st: PageState, ev: SwapEvent, id: string, timestamp: string): PageState
    requires cfg.model.ReservePair? && ev.UnnettedSwap?
  {
    match ClassifyUnnettedSwapAsWritten(ev.amount0In, ev.amount1In, ev.amount0Out, ev.amount1Out,
                                        cfg.decimals0, cfg.decimals1, id, timestamp)
    case Failure(_) => st
  }

  /** The effect's cleanup: clear the captured interval, remove the
      captured pool's listeners, destroy the captured provider.  Other
      connections and armed reconnect timers are left alone. */
  function Cleanup(st: PageState): PageState
    requires Valid(st)
  {
    match st.captured
    case None => st
    case Some(c) => st.(connections := st.connections[c := Released])
  }

  // -------------------------------------------------------------- event runs

  /** An event that can reach a mounted page after `initialize`. */
  datatype Event =
    | Reconnect(connects: bool)
    | Probe(conn: nat, reachable: bool)
    | Network(conn: nat, hasOldNetwork: bool)
    | ProviderError(conn: nat)
    | Swap(conn: nat, swap: SwapEvent, now: int, id: string, timestamp: string)
    | Sync(conn: nat, reserve0: nat, reserve1: nat, now: int)
    | Unmount

  /** Whether the event can be delivered: a timer must be armed, a
      provider live, a pool's listeners attached, and the event of the
      pool's kind. */
  predicate Enabled(cfg: PairConfig, st: PageState, e: Event)
  {
    match e
    case Reconnect(_) => st.pendingReconnects > 0
    case Probe(i, _) => i < |st.connections| && st.connections[i].probing
    case Network(i, _) => i < |st.connections| && st.connections[i].providerLive
    case ProviderError(i) => i < |st.connections| && st.connections[i].providerLive
    case Swap(i, ev, _, _, _) =>
      i < |st.connections| && st.connections[i].listening && EmitsSwap(cfg, ev)
    case Sync(i, _, _, _) => i < |st.connections| && st.connections[i].listening && cfg.model.ReservePair?
    case Unmount => true
  }

  function Step(cfg: PairConfig, st: PageState, e: Event): PageState
    requires Valid(st) && Enabled(cfg, st, e)
  {
    match e
    case Reconnect(connects) => ReconnectFire(st, connects)
    case Probe(i, reachable) => ProbeTick(st, i, reachable)
    case Network(_, hasOld) => OnNetwork(st, hasOld)
    case ProviderError(_) => OnProviderError(st)
    case Swap(_, ev, now, id, ts) =>
      if ev.SignedSwap? then OnSignedSwap(cfg, st, ev, now, id, ts)
      else OnUnnettedSwap(cfg, st, ev, id, ts)
    case Sync(_, r0, r1, now) => OnSync(cfg, st, r0, r1, now)
    case Unmount => Cleanup(st)
  }

  /** A run of events in arrival order; one that cannot be delivered in
      the state reached is skipped. */
  function Run(cfg: PairConfig, st: PageState, events: seq<Event>): PageState
    requires Valid(st)
    decreases |events|
  {
    if events == [] then st
    else
      StepKeepsValid(cfg, st, events[0]);
      var next := if Enabled(cfg, st, events[0]) then Step(cfg, st, events[0]) else st;
      Run(cfg, next, events[1..])
  }

  // ------------------------------------------------------------------ lemmas

  lemma InitializeKeepsValid(cfg: PairConfig, st: PageState, snapshot: Option<PoolState>, connects: bool, now: int)
    requires Valid(st) && (snapshot.Some? ==> ReadsState(cfg, snapshot.value))
    ensures Valid(Initialize(cfg, st, snapshot, connects, now))
  {
  }

  /** Every delivered event keeps the list within its bound and the
      captured handles pointing at a connection. */
  lemma StepKeepsValid(cfg: PairConfig, st: PageState, e: Event)
    requires Valid(st)
    ensures Enabled(cfg, st, e) ==> Valid(Step(cfg, st, e))
  {
  }

  /** Whatever arrives, the page never holds more than `MaxTransactions`
      transactions. */
  lemma {:induction false} RunKeepsValid(cfg: PairConfig, st: PageState, events: seq<Event>)
    requires Valid(st)
    ensures Valid(Run(cfg, st, events))
    ensures |Run(cfg, st, events).transactions| <= MaxTransactions
    decreases |events|
  {
    if events != [] {
      StepKeepsValid(cfg, st, events[0]);
      var next := if Enabled(cfg, st, events[0]) then Step(cfg, st, events[0]) else st;
      RunKeepsValid(cfg, next, events[1..]);
    }
  }

  /** A successful fetch sets the price from the pool state, refreshes
      `lastUpdate` and clears the error; a failed one shows its message
      and leaves the price as it was. */
  lemma FetchInitialPriceOutcome(cfg: PairConfig, st: PageState, snapshot: Option<PoolState>, now: int)
    requires snapshot.Some? ==> ReadsState(cfg, snapshot.value)
    ensures var (st', ok) := FetchInitialPrice(cfg, st, snapshot, now);
            if ok then st'.price == Some(DerivePrice(cfg, snapshot.value)) && st'.lastUpdate == Some(now) && st'.error == None
            else st'.price == st.price && st'.lastUpdate == st.lastUpdate && st'.error == Some(FetchFailedMessage)
  {
  }

  /** The WebSocket is set up only after a successful fetch: when the fetch
      fails no connection is opened and no reconnect is armed. */
  lemma SubscribeOnlyAfterFetch(cfg: PairConfig, st: PageState, snapshot: Option<PoolState>, connects: bool, now: int)
    requires snapshot.Some? ==> ReadsState(cfg, snapshot.value)
    ensures var st' := Initialize(cfg, st, snapshot, connects, now);
            (|st'.connections| > |st.connections| <==> snapshot.Some? && connects) &&
            (st'.pendingReconnects > st.pendingReconnects <==> snapshot.Some? && !connects) &&
            (snapshot.Some? && connects ==> st'.captured == Some(|st.connections|)) &&
            (snapshot.None? ==> st'.captured == st.captured && st'.isConnected == st.isConnected)
  {
  }

  /** A page whose initial fetch failed stays disconnected for ever: no
      provider exists, no timer is armed, and nothing that can arrive
      changes its state. */
  lemma {:induction false} FailedFetchNeverConnects(cfg: PairConfig, connects: bool, now: int, events: seq<Event>)
    ensures var st := Initialize(cfg, Initial, None, connects, now);
            Run(cfg, st, events) == st && !st.isConnected && st.error == Some(FetchFailedMessage)
    decreases |events|
  {
    var st := Initialize(cfg, Initial, None, connects, now);
    assert st == Initial.(error := Some(FetchFailedMessage));
    if events != [] {
      assert !Enabled(cfg, st, events[0]) || Step(cfg, st, events[0]) == st;
      FailedFetchNeverConnects(cfg, connects, now, events[1..]);
    }
  }

  /** A failed setup shows its message, marks the page disconnected and
      arms exactly one reconnect. */
  lemma SetupFailureArmsOneReconnect(st: PageState)
    ensures var (st', handle) := SetupWebSocket(st, false);
            handle == None && st'.error == Some(SetupFailedMessage) && !st'.isConnected &&
            st'.pendingReconnects == st.pendingReconnects + 1 && st'.connections == st.connections
  {
  }

  /** A failed probe arms exactly one reconnect and clears its own
      interval, but leaves the old provider live and its listeners
      attached; a successful probe changes nothing. */
  lemma ProbeFailureArmsOneReconnect(st: PageState, i: nat)
    requires i < |st.connections| && st.connections[i].probing
    ensures var st' := ProbeTick(st, i, false);
            st'.pendingReconnects == st.pendingReconnects + 1 &&
            !st'.connections[i].probing &&
            st'.connections[i].providerLive == st.connections[i].providerLive &&
            st'.connections[i].listening == st.connections[i].listening &&
            ListeningCount(st'.connections) == ListeningCount(st.connections)
    ensures ProbeTick(st, i, true) == st
  {
    ListeningCountUpdate(st.connections, i, st.connections[i].(probing := false));
  }

  /** The same interval cannot arm a second reconnect: after it failed
      once, another tick of it is not delivered, and whatever arrives
      afterwards its interval stays cleared, so none of its ticks is ever
      delivered again. */
  lemma NoDuplicateReconnect(cfg: PairConfig, st: PageState, i: nat, events: seq<Event>)
    requires Valid(st) && i < |st.connections| && st.connections[i].probing
    ensures Run(cfg, st, [Probe(i, false), Probe(i, false)]) == ProbeTick(st, i, false)
    ensures var st' := Run(cfg, ProbeTick(st, i, false), events);
            i < |st'.connections| && !st'.connections[i].probing
  {
    ClearedProbeStaysCleared(cfg, ProbeTick(st, i, false), i, events);
    var st1 := ProbeTick(st, i, false);
    assert Run(cfg, st, [Probe(i, false), Probe(i, false)]) == Run(cfg, st1, [Probe(i, false)]);
    assert !Enabled(cfg, st1, Probe(i, false));
    assert Run(cfg, st1, [Probe(i, false)]) == Run(cfg, st1, []);
  }

  /** A cleared interval is never set again: no event re-arms the probe of
      an existing connection, and no event removes a connection. */
  lemma {:induction false} ClearedProbeStaysCleared(cfg: PairConfig, st: PageState, i: nat, events: seq<Event>)
    requires Valid(st) && i < |st.connections| && !st.connections[i].probing
    ensures var st' := Run(cfg, st, events);
            i < |st'.connections| && !st'.connections[i].probing
    decreases |events|
  {
    if events != [] {
      StepKeepsValid(cfg, st, events[0]);
      var next := if Enabled(cfg, st, events[0]) then Step(cfg, st, events[0]) else st;
      assert i < |next.connections| && !next.connections[i].probing;
      ClearedProbeStaysCleared(cfg, next, i, events[1..]);
    }
  }

  /** A reconnect that opens a channel adds one listening connection and
      does not capture it; one that fails re-arms itself. */
  lemma ReconnectOutcome(st: PageState, connects: bool)
    requires st.pendingReconnects > 0
    ensures var st' := ReconnectFire(st, connects);
            st'.captured == st.captured &&
            (connects ==>
               st'.connections == st.connections + [Opened] &&
               st'.pendingReconnects == st.pendingReconnects - 1 &&
               ListeningCount(st'.connections) == ListeningCount(st.connections) + 1) &&
            (!connects ==> st'.connections == st.connections && st'.pendingReconnects == st.pendingReconnects)
  {
    if connects {
      assert (st.connections + [Opened])[..|st.connections|] == st.connections;
    }
  }

  /** `network` with no old network marks the page connected and clears
      the error; with one it changes nothing; `error` marks the page
      disconnected with its message. */
  lemma ConnectionEvents(st: PageState)
    ensures OnNetwork(st, false) == st.(isConnected := true, error := None)
    ensures OnNetwork(st, true) == st
    ensures OnProviderError(st) == st.(isConnected := false, error := Some(ProviderErrorMessage))
  {
  }

  /** A concentrated-liquidity Swap sets the price from the event's
      `sqrtPriceX96`, refreshes `lastUpdate`, and puts the new record in
      front of the list, which keeps its order and its bound. */
  lemma SignedSwapEffect(cfg: PairConfig, st: PageState, ev: SwapEvent, now: int, id: string, ts: string)
    requires Valid(st) && cfg.model.ConcentratedLiquidity? && ev.SignedSwap?
    ensures var st' := OnSignedSwap(cfg, st, ev, now, id, ts);
            st'.price == Some(DerivePrice(cfg, Slot0(ev.sqrtPriceX96))) && st'.lastUpdate == Some(now) &&
            st'.transactions[0] == Classify(cfg, ev, id, ts) &&
            |st'.transactions| == Min(|st.transactions| + 1, MaxTransactions) &&
            (forall k :: 1 <= k < |st'.transactions| ==> st'.transactions[k] == st.transactions[k - 1]) &&
            st'.connections == st.connections && st'.error == st.error && st'.isConnected == st.isConnected &&
            st'.captured == st.captured && st'.pendingReconnects == st.pendingReconnects
  {
  }

  /** A Sync updates price and `lastUpdate` only; a reserve-pool Swap
      changes neither and only records the transaction. */
  lemma ReservePoolEvents(cfg: PairConfig, st: PageState, r0: nat, r1: nat, ev: SwapEvent, now: int, id: string, ts: string)
    requires cfg.model.ReservePair? && ev.UnnettedSwap?
    ensures var st' := OnSync(cfg, st, r0, r1, now);
            st' == st.(price := Some(DerivePrice(cfg, Reserves(r0, r1))), lastUpdate := Some(now)) &&
            st'.transactions == st.transactions
    ensures OnUnnettedSwap(cfg, st, ev, id, ts) ==
              st.(transactions := Record(st.transactions, Classify(cfg, ev, id, ts)))
  {
  }

  /** As written, the reserve-pool Swap handler never records anything,
      while the intended one always puts the swap in front of the list. */
  lemma IsZeroFaultDropsEverySwap(cfg: PairConfig, st: PageState, ev: SwapEvent, id: string, ts: string)
    requires cfg.model.ReservePair? && ev.UnnettedSwap?
    ensures OnUnnettedSwapAsWritten(cfg, st, ev, id, ts) == st
    ensures OnUnnettedSwap(cfg, st, ev, id, ts).transactions[0] == Classify(cfg, ev, id, ts)
  {
  }

  /** Cleanup releases the captured connection's provider, listeners and
      interval and nothing else; a second cleanup changes nothing. */
  lemma CleanupReleasesCaptured(st: PageState)
    requires Valid(st)
    ensures var st' := Cleanup(st);
            Valid(st') && |st'.connections| == |st.connections| &&
            st'.pendingReconnects == st.pendingReconnects &&
            (st.captured.Some? ==> st'.connections[st.captured.value] == Released) &&
            (forall k :: 0 <= k < |st.connections| && Some(k) != st.captured ==>
               st'.connections[k] == st.connections[k])
    ensures Cleanup(Cleanup(st)) == Cleanup(st)
  {
  }

  /** A reconnect armed before cleanup still fires afterwards and opens a
      fresh provider with listeners and a probe, which no cleanup will
      ever release: the captured handles stay those of the first setup. */
  lemma ReconnectSurvivesCleanup(cfg: PairConfig, st: PageState)
    requires Valid(st) && st.pendingReconnects > 0
    ensures var st' := Run(cfg, st, [Unmount, Reconnect(true)]);
            |st'.connections| == |st.connections| + 1 &&
            st'.connections[|st.connections|] == Opened &&
            st'.captured == st.captured
  {
    var st1 := Cleanup(st);
    assert Run(cfg, st, [Unmount, Reconnect(true)]) == Run(cfg, st1, [Reconnect(true)]);
    assert Run(cfg, st1, [Reconnect(true)]) == Run(cfg, ReconnectFire(st1, true), []);
  }

  lemma ListeningCountUpdate(cs: seq<Connection>, i: nat, c: Connection)
    requires i < |cs| && c.listening == cs[i].listening
    ensures ListeningCount(cs[i := c]) == ListeningCount(cs)
    decreases |cs|
  {
    if i < |cs| - 1 {
      assert cs[i := c][..|cs| - 1] == cs[..|cs| - 1][i := c];
      ListeningCountUpdate(cs[..|cs| - 1], i, c);
    } else {
      assert cs[i := c][..|cs| - 1] == cs[..|cs| - 1];
    }
  }

  /** `n` rounds of "the newest connection's probe fails, then the
      reconnect opens a channel", starting with connection `first`. */
  function FailReopenRounds(first: nat, n: nat): seq<Event>
    decreases n
  {
    if n == 0 then [] else [Probe(first, false), Reconnect(true)] + FailReopenRounds(first + 1, n - 1)
  }

  lemma FailReopenRound(cfg: PairConfig, st: PageState, rest: seq<Event>)
    requires Valid(st) && |st.connections| > 0 && st.connections[|st.connections| - 1].probing
    ensures var i := |st.connections| - 1;
            var st' := ReconnectFire(ProbeTick(st, i, false), true);
            Valid(st') &&
            Run(cfg, st, [Probe(i, false), Reconnect(true)] + rest) == Run(cfg, st', rest) &&
            |st'.connections| == |st.connections| + 1 && st'.connections[|st.connections|] == Opened &&
            ListeningCount(st'.connections) == ListeningCount(st.connections) + 1 &&
            st'.pendingReconnects == st.pendingReconnects && st'.captured == st.captured
  {
    var i := |st.connections| - 1;
    var es := [Probe(i, false), Reconnect(true)] + rest;
    var a := ProbeTick(st, i, false);
    ProbeFailureArmsOneReconnect(st, i);
    ReconnectOutcome(a, true);
    assert es[1..] == [Reconnect(true)] + rest;
    assert es[1..][1..] == rest;
  }

  /** Each failed probe is followed by exactly one reconnect, and each
      reconnect that opens a channel adds a connection while the failed
      one keeps its listeners attached: after `n` rounds, `n` more connections
      listen and no timer is left armed beyond those there were. */
  lemma {:induction false} FailReopenRoundsAccumulate(cfg: PairConfig, st: PageState, n: nat)
    requires Valid(st) && |st.connections| > 0 && st.connections[|st.connections| - 1].probing
    ensures var st' := Run(cfg, st, FailReopenRounds(|st.connections| - 1, n));
            |st'.connections| == |st.connections| + n &&
            ListeningCount(st'.connections) == ListeningCount(st.connections) + n &&
            st'.pendingReconnects == st.pendingReconnects && st'.captured == st.captured
    decreases n
  {
    if n > 0 {
      var i := |st.connections| - 1;
      var rest := FailReopenRounds(i + 1, n - 1);
      FailReopenRound(cfg, st, rest);
      var st1 := ReconnectFire(ProbeTick(st, i, false), true);
      FailReopenRoundsAccumulate(cfg, st1, n - 1);
    }
  }

  /** Three probe failures, each followed by a reconnect that opens a
      channel, leave four connections with their Swap listeners attached
      (not one), no armed timer, and the cleanup still aimed at the
      first. */
  lemma ThreeProbeFailuresLeaveFourListeners(cfg: PairConfig, snapshot: PoolState, now: int)
    requires ReadsState(cfg, snapshot)
    ensures var st := Initialize(cfg, Initial, Some(snapshot), true, now);
            var st' := Run(cfg, st, FailReopenRounds(0, 3));
            ListeningCount(st'.connections) == 4 && |st'.connections| == 4 &&
            st'.pendingReconnects == 0 && st'.captured == Some(0)
  {
    var st0 := Initialize(cfg, Initial, Some(snapshot), true, now);
    assert st0.connections == [Opened] && st0.pendingReconnects == 0 && st0.captured == Some(0);
    assert ListeningCount(st0.connections) == 1 by {
      assert st0.connections[..0] == [];
    }
    FailReopenRoundsAccumulate(cfg, st0, 3);
  }
}
