/** The decisions of the ETH price card: the up/down arrow that compares
    each new price with the one before it, and which of the error,
    loading or price views is shown. */
module Display {
  import opened Wrappers
  import opened JsNumber

  datatype Direction = Up | Down

  datatype DisplayMode = ErrorMode | LoadingMode | PriceMode

  /** The effect body run when `price` changes: compare with the
      remembered price when both are known, then remember the new one
      (`null` included). */
  function PriceEffect(previous: Option<Num>, direction: Option<Direction>, price: Option<Num>): (r: (Option<Num>, Option<Direction>))
    ensures r.0 == price
    ensures price.Some? && previous.Some? ==>
              r.1.Some? && (r.1 == Some(Up) <==> Greater(price.value, previous.value))
    ensures price.None? || previous.None? ==> r.1 == direction
  {
    if price.Some? && previous.Some? then
      (price, Some(if Greater(price.value, previous.value) then Up else Down))
    else (price, direction)
  }

  /** One render with the given `price` prop: React re-runs the effect
      only when `price` differs from the last render's, which is the
      remembered one. */
  function Render(previous: Option<Num>, direction: Option<Direction>, price: Option<Num>): (Option<Num>, Option<Direction>)
  {
    if price == previous then (previous, direction) else PriceEffect(previous, direction, price)
  }

  /** Truthiness of the `error` prop: `null` and `""` are falsy. */
  predicate ShowsError(error: Option<string>)
  {
    error.Some? && error.value != ""
  }

  /** `error ? … : !price ? … : …` */
  function Mode(error: Option<string>, price: Option<Num>): (m: DisplayMode)
    ensures m == ErrorMode <==> ShowsError(error)
    ensures m == LoadingMode <==> !ShowsError(error) && (price.None? || !Truthy(price.value))
    ensures m == PriceMode <==> !ShowsError(error) && price.Some? && Truthy(price.value)
  {
    if ShowsError(error) then ErrorMode
    else if price.None? || !Truthy(price.value) then LoadingMode
    else PriceMode
  }

  /** The hint under the error message. */
  function RecoveryHint(isConnected: bool): (s: string)
    ensures s == "Attempting to recover..." <==> isConnected
    ensures s == "Attempting to reconnect..." <==> !isConnected
  {
    if isConnected then "Attempting to recover..." else "Attempting to reconnect..."
  }

  /** The label beside the last-update time. */
  function StatusLabel(isConnected: bool): (s: string)
    ensures s == "(Live)" <==> isConnected
    ensures s == "(Reconnecting...)" <==> !isConnected
  {
    if isConnected then "(Live)" else "(Reconnecting...)"
  }

  /** The transactions table is rendered outside the three views. */
  function ShowsTransactions<T>(transactions: seq<T>): (b: bool)
    ensures b <==> transactions != []
  {
    |transactions| > 0
  }

  /** The effect body treats equal prices as a fall. */
  lemma EqualPricesReadAsDown(p: Num, direction: Option<Direction>)
    ensures PriceEffect(Some(p), direction, Some(p)).1 == Some(Down)
  {
  }

  /** Through React's dependency check the arrow only moves when the
      price really changed and both prices are known; it then points up
      exactly when the new price is greater. */
  lemma RenderDirection(previous: Option<Num>, direction: Option<Direction>, price: Option<Num>)
    ensures var (remembered, direction') := Render(previous, direction, price);
            remembered == price &&
            (direction' != direction ==> price != previous && price.Some? && previous.Some?) &&
            (price != previous && price.Some? && previous.Some? ==>
               (direction' == Some(Up) <==> Greater(price.value, previous.value)))
  {
  }

  /** A non-empty error message hides a known price; a zero or NaN price
      shows the loading view like a missing one. */
  lemma ModePriority(error: string, price: Option<Num>)
    ensures error != "" ==> Mode(Some(error), price) == ErrorMode
    ensures Mode(None, Some(Finite(0.0))) == LoadingMode && Mode(None, Some(NotANumber)) == LoadingMode
    ensures Mode(Some(""), price) == Mode(None, price)
    ensures Mode(None, Some(PosInfinity)) == PriceMode
  {
  }

  class DirectionTracker {
    // `previousPrice.current`
    var previousPrice: Option<Num>
    // `priceDirection`
    var priceDirection: Option<Direction>

    constructor ()
      ensures previousPrice == None && priceDirection == None
    {
      previousPrice, priceDirection := None, None;
    }

    method RunEffect(price: Option<Num>)
      modifies this
      ensures (previousPrice, priceDirection) == PriceEffect(old(previousPrice), old(priceDirection), price)
    {
      if price.Some? && previousPrice.Some? {
        priceDirection := Some(if Greater(price.value, previousPrice.value) then Up else Down);
      }
      previousPrice := price;
    }

    method OnRender(price: Option<Num>)
      modifies this
      ensures (previousPrice, priceDirection) == Render(old(previousPrice), old(priceDirection), price)
    {
      if price != previousPrice {
        RunEffect(price);
      }
    }
  }
}
