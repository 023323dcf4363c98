/** `place_order` of `trade_execution.py`: a mock order placer that accepts a
    buy or a sell of a positive amount of the one supported symbol, and the
    scripted session `mock_trading` that places one of each. */
module TradeExecution {
  import opened Wrappers

  const SupportedSymbol: string := "BTC/USDT"
  const MockOrderId: string := "mock_order_id"
  const InvalidParameters: string := "Invalid parameters"

  /** The two shapes of the returned dictionary:
      `{status: 'success', order_id: ...}` and `{status: 'error', message: ...}`. */
  datatype OrderResponse = Success(orderId: string) | Error(message: string)
  {
    function Status(): string
    {
      if Success? then "success" else "error"
    }
  }

  /** The order is one the mock exchange accepts (comparisons are exact, so
      'BUY' or 'btc/usdt' is rejected). */
  predicate Acceptable(symbol: string, side: string, amount: real)
  {
    (side == "buy" || side == "sell") && symbol == SupportedSymbol && amount > 0.0
  }

  /** `place_order`; `price` is only logged. */
  function PlaceOrder(symbol: string, side: string, amount: real, price: Option<real>): (r: OrderResponse)
    ensures r.Status() == "success" <==> Acceptable(symbol, side, amount)
    ensures r.Success? ==> r.orderId == MockOrderId
    ensures r.Error? ==> r.message == InvalidParameters
  {
    if side == "buy" && symbol == SupportedSymbol && amount > 0.0 then
      Success(MockOrderId)
    else if side == "sell" && symbol == SupportedSymbol && amount > 0.0 then
      Success(MockOrderId)
    else
      Error(InvalidParameters)
  }

  /** The price argument never changes the response. */
  lemma PriceIgnored(symbol: string, side: string, amount: real, p1: Option<real>, p2: Option<real>)
    ensures PlaceOrder(symbol, side, amount, p1) == PlaceOrder(symbol, side, amount, p2)
  {
  }

  /** A buy and a sell of the same symbol and amount get the same response. */
  lemma BuySellSymmetric(symbol: string, amount: real, price: Option<real>)
    ensures PlaceOrder(symbol, "buy", amount, price) == PlaceOrder(symbol, "sell", amount, price)
  {
  }

  /** Sides are matched case-sensitively. */
  lemma UpperCaseSideRejected(amount: real, price: Option<real>)
    ensures PlaceOrder(SupportedSymbol, "BUY", amount, price) == Error(InvalidParameters)
    ensures PlaceOrder(SupportedSymbol, "SELL", amount, price) == Error(InvalidParameters)
  {
  }

  /** `mock_trading`: a buy of 0.01 at 50000 followed by a sell of 0.01 at 51000. */
  function MockTrading(): (r: (OrderResponse, OrderResponse))
    ensures r.0 == Success(MockOrderId) && r.1 == Success(MockOrderId)
  {
    var buyResponse := PlaceOrder(SupportedSymbol, "buy", 0.01, Some(50000.0));
    var sellResponse := PlaceOrder(SupportedSymbol, "sell", 0.01, Some(51000.0));
    (buyResponse, sellResponse)
  }
}
