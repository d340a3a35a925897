/** A price page as the component holds it: the React state and the
    effect's closure variables are fields, and each handler is a method
    that updates them step by step, proved to make the corresponding
    transition of `Session`. */
module Pages {
  import opened Wrappers
  import opened JsNumber
  import opened Swaps
  import opened ActivityLog
  import opened Pairs
  import S = Session

  class PricePage {
    const config: PairConfig

    // React state
    var price: Option<Num>
    var lastUpdate: Option<int>
    var error: Option<string>
    var isConnected: bool
    var transactions: seq<Transaction>
    // every connection `setupWebSocket` opened, oldest first
    var connections: seq<S.Connection>
    // the effect's `wsProvider`/`pool`/`intervalId` closure variables
    var captured: Option<nat>
    // armed `setTimeout(setupWebSocket, RECONNECT_DELAY)` timers
    var pendingReconnects: nat

    function State(): S.PageState
      reads this
    {
      S.PageState(price, lastUpdate, error, isConnected, transactions, connections, captured, pendingReconnects)
    }

    ghost predicate Valid()
      reads this
    {
      S.Valid(State())
    }

    constructor (cfg: PairConfig)
      ensures config == cfg && State() == S.Initial && Valid()
    {
      config := cfg;
      price, lastUpdate, error, isConnected := None, None, None, false;
      transactions, connections, captured, pendingReconnects := [], [], None, 0;
    }

    method FetchInitialPrice(snapshot: Option<PoolState>, now: int) returns (success: bool)
      requires Valid() && (snapshot.Some? ==> ReadsState(config, snapshot.value))
      modifies this
      ensures Valid()
      ensures (State(), success) == S.FetchInitialPrice(config, old(State()), snapshot, now)
    {
      match snapshot {
        case Some(state) =>
          price := Some(DerivePrice(config, state));
          lastUpdate := Some(now);
          error := None;
          success := true;
        case None =>
          error := Some(S.FetchFailedMessage);
          success := false;
      }
    }

    method SetupWebSocket(connects: bool) returns (handle: Option<nat>)
      requires Valid()
      modifies this
      ensures Valid()
      ensures (State(), handle) == S.SetupWebSocket(old(State()), connects)
    {
      if connects {
        handle := Some(|connections|);
        connections := connections + [S.Opened];
      } else {
        error := Some(S.SetupFailedMessage);
        isConnected := false;
        pendingReconnects := pendingReconnects + 1;
        handle := None;
      }
    }

    method Initialize(snapshot: Option<PoolState>, connects: bool, now: int)
      requires Valid() && (snapshot.Some? ==> ReadsState(config, snapshot.value))
      modifies this
      ensures Valid()
      ensures State() == S.Initialize(config, old(State()), snapshot, connects, now)
    {
      var priceSuccess := FetchInitialPrice(snapshot, now);
      if priceSuccess {
        var connection := SetupWebSocket(connects);
        if connection.Some? {
          captured := connection;
        }
      }
    }

    method OnReconnectTimer(connects: bool)
      requires Valid() && pendingReconnects > 0
      modifies this
      ensures Valid()
      ensures State() == S.ReconnectFire(old(State()), connects)
    {
      pendingReconnects := pendingReconnects - 1;
      var _ := SetupWebSocket(connects);
    }

    method OnProbeTick(i: nat, reachable: bool)
      requires Valid() && i < |connections| && connections[i].probing
      modifies this
      ensures Valid()
      ensures State() == S.ProbeTick(old(State()), i, reachable)
    {
      if !reachable {
        connections := connections[i := connections[i].(probing := false)];
        pendingReconnects := pendingReconnects + 1;
      }
    }

    method OnNetwork(i: nat, hasOldNetwork: bool)
      requires Valid() && i < |connections| && connections[i].providerLive
      modifies this
      ensures Valid()
      ensures State() == S.OnNetwork(old(State()), hasOldNetwork)
    {
      if !hasOldNetwork {
        isConnected := true;
        error := None;
      }
    }

    method OnProviderError(i: nat)
      requires Valid() && i < |connections| && connections[i].providerLive
      modifies this
      ensures Valid()
      ensures State() == S.OnProviderError(old(State()))
    {
      isConnected := false;
      error := Some(S.ProviderErrorMessage);
    }

    method OnSwap(i: nat, ev: SwapEvent, now: int, id: string, timestamp: string)
      requires Valid() && i < |connections| && connections[i].listening && EmitsSwap(config, ev)
      modifies this
      ensures Valid()
      ensures ev.SignedSwap? ==> State() == S.OnSignedSwap(config, old(State()), ev, now, id, timestamp)
      ensures ev.UnnettedSwap? ==> State() == S.OnUnnettedSwap(config, old(State()), ev, id, timestamp)
    {
      if ev.SignedSwap? {
        price := Some(DerivePrice(config, Slot0(ev.sqrtPriceX96)));
        lastUpdate := Some(now);
      }
      var newTransaction := Classify(config, ev, id, timestamp);
      transactions := Record(transactions, newTransaction);
    }

    method OnUnnettedSwapAsWritten(i: nat, ev: SwapEvent, id: string, timestamp: string)
      requires Valid() && i < |connections| && connections[i].listening
      requires config.model.ReservePair? && ev.UnnettedSwap?
      modifies this
      ensures Valid()
      ensures State() == S.OnUnnettedSwapAsWritten(config, old(State()), ev, id, timestamp)
    {
      var built := ClassifyUnnettedSwapAsWritten(ev.amount0In, ev.amount1In, ev.amount0Out, ev.amount1Out,
                                                 config.decimals0, config.decimals1, id, timestamp);
      match built {
        case Failure(_) =>  // the handler throws before `setTransactions`
      }
    }

    method OnSync(i: nat, reserve0: nat, reserve1: nat, now: int)
      requires Valid() && i < |connections| && connections[i].listening && config.model.ReservePair?
      modifies this
      ensures Valid()
      ensures State() == S.OnSync(config, old(State()), reserve0, reserve1, now)
    {
      price := Some(DerivePrice(config, Reserves(reserve0, reserve1)));
      lastUpdate := Some(now);
    }

    method Cleanup()
      requires Valid()
      modifies this
      ensures Valid()
      ensures State() == S.Cleanup(old(State()))
    {
      if captured.Some? {
        var c := captured.value;
        connections := connections[c := connections[c].(probing := false)];
        connections := connections[c := connections[c].(listening := false)];
        connections := connections[c := connections[c].(providerLive := false)];
      }
    }
  }
}
