/** The manual trading routes: placing an order (`POST /order`), cancelling
    one (`DELETE /order/:symbol/:orderId`) and listing open positions
    (`GET /positions`).

    Request-body properties are optional strings: `None` when the body does
    not carry the property, and truthy when present and non-empty. */
module TradingRoutes {
  import opened Wrappers
  import opened JsValues
  import opened Store
  import opened Exchange

  datatype OrderRequest = OrderRequest(
    symbol: Option<string>,
    side: Option<string>,
    orderType: Option<string>,
    quantity: Option<string>,
    price: Option<string>,
    stopPrice: Option<string>,
    timeInForce: Option<string>)

  /** `!symbol || !side || !type || !quantity`. */
  predicate MissingRequired(req: OrderRequest) {
    !Present(req.symbol) || !Present(req.side) || !Present(req.orderType) || !Present(req.quantity)
  }

  /** `timeInForce = 'GTC'`: the default applies only when the property is
      absent, not when it is empty. */
  function TimeInForce(req: OrderRequest): (tif: string)
    ensures req.timeInForce.None? ==> tif == "GTC"
    ensures req.timeInForce.Some? ==> tif == req.timeInForce.value
  {
    req.timeInForce.GetOr("GTC")
  }

  /** The order types that take a limit price and those that take a stop
      price. */
  predicate TakesPrice(orderType: string) {
    orderType == "LIMIT" || orderType == "STOP_LIMIT"
  }

  predicate TakesStopPrice(orderType: string) {
    orderType == "STOP_MARKET" || orderType == "STOP_LIMIT"
  }

  /** The `orderData` sent to the exchange. It always carries the time in
      force; it carries the price exactly when the price is truthy and the
      type takes one, and likewise the stop price. */
  function OrderData(req: OrderRequest): (spec: OrderSpec)
    requires !MissingRequired(req)
    ensures spec.symbol == req.symbol.value && spec.side == req.side.value
    ensures spec.orderType == req.orderType.value && spec.quantity == req.quantity.value
    ensures spec.timeInForce == Some(TimeInForce(req))
    ensures spec.price.Some? <==> Present(req.price) && TakesPrice(req.orderType.value)
    ensures spec.price.Some? ==> spec.price == req.price
    ensures spec.stopPrice.Some? <==> Present(req.stopPrice) && TakesStopPrice(req.orderType.value)
    ensures spec.stopPrice.Some? ==> spec.stopPrice == req.stopPrice
  {
    var orderType := req.orderType.value;
    OrderSpec(req.symbol.value, req.side.value, orderType, req.quantity.value, Some(TimeInForce(req)),
              if Present(req.price) && TakesPrice(orderType) then req.price else None,
              if Present(req.stopPrice) && TakesStopPrice(orderType) then req.stopPrice else None)
  }

  /** A MARKET order never carries a price or a stop price, whatever the
      body holds; a STOP_LIMIT order carries both when both are given. */
  lemma MarketOrdersCarryNoPrices(req: OrderRequest)
    requires !MissingRequired(req)
    ensures req.orderType.value == "MARKET" ==> OrderData(req).price.None? && OrderData(req).stopPrice.None?
    ensures req.orderType.value == "STOP_LIMIT" && Present(req.price) && Present(req.stopPrice) ==>
              OrderData(req).price == req.price && OrderData(req).stopPrice == req.stopPrice
  {
  }

  /** Builds `orderData` as the route does: the five fixed properties, then
      the price and the stop price attached when they apply. */
  method PrepareOrder(req: OrderRequest) returns (orderData: OrderSpec)
    requires !MissingRequired(req)
    ensures orderData == OrderData(req)
  {
    var timeInForce := TimeInForce(req);
    var orderType := req.orderType.value;
    orderData := OrderSpec(req.symbol.value, req.side.value, orderType, req.quantity.value, Some(timeInForce), None, None);
    if Present(req.price) && (orderType == "LIMIT" || orderType == "STOP_LIMIT") {
      orderData := orderData.(price := req.price);
    }
    if Present(req.stopPrice) && (orderType == "STOP_MARKET" || orderType == "STOP_LIMIT") {
      orderData := orderData.(stopPrice := req.stopPrice);
    }
  }

  /** `x || null` on an optional string. */
  function TruthyOrNull(x: Option<string>): (r: Option<string>)
    ensures r.Some? <==> Present(x)
    ensures r.Some? ==> r == x
  {
    if Present(x) then x else None
  }

  /** The trade row stored for a placed order: the request's own fields,
      the reply's execution figures with 0 for any that is missing, and an
      execution time exactly when the order was filled. */
  function OrderTrade(userId: int, req: OrderRequest, order: OrderResult, now: int): (t: TradeRow)
    requires !MissingRequired(req)
    ensures t.userId == userId && t.orderId == order.orderId && t.status == order.status
    ensures t.symbol == req.symbol.value && t.side == req.side.value
    ensures t.orderType == req.orderType.value && t.quantity == req.quantity.value
    ensures t.price == TruthyOrNull(req.price) && t.stopPrice == TruthyOrNull(req.stopPrice)
    ensures t.executedQuantity == StringOr(order.executedQty, "0")
    ensures t.executedPrice == StringOr(order.avgPrice, "0")
    ensures t.commission == Some(StringOr(order.commission, "0"))
    ensures t.commissionAsset == TruthyOrNull(order.commissionAsset)
    ensures t.timeInForce == Some(TimeInForce(req)) && t.accountType == "futures"
    ensures t.signalId.None? && !t.isAutomated
    ensures t.executedAt.Some? <==> order.status == "FILLED"
    ensures t.executedAt.Some? ==> t.executedAt.value == now
  {
    TradeRow(userId, order.orderId, req.symbol.value, req.side.value, req.orderType.value, req.quantity.value,
             TruthyOrNull(req.price), TruthyOrNull(req.stopPrice),
             StringOr(order.executedQty, "0"), StringOr(order.avgPrice, "0"),
             Some(StringOr(order.commission, "0")), TruthyOrNull(order.commissionAsset),
             order.status, Some(TimeInForce(req)), "futures", None, false,
             if order.status == "FILLED" then Some(now) else None)
  }

  /** The credentials installed from a user's API key row. */
  function CredentialsOf(key: ApiKey): Credentials {
    Credentials(key.apiKey, key.secretKey, key.isTestnet)
  }

  // ---------------------------------------------------------------------
  // POST /order (server/routes/trading.js:72-153)

  method CreateOrder(db: Database, gateway: Gateway, userId: int, req: OrderRequest, now: int)
    returns (r: Result<OrderResult, HttpError>)
    requires db.Valid()
    modifies db, gateway
    ensures db.Valid()
    ensures db.signals == old(db.signals) && db.apiKeys == old(db.apiKeys) && db.nextSignalId == old(db.nextSignalId)
    ensures MissingRequired(req) ==> r == Failure(HttpError(400, "Missing required fields"))
    ensures !MissingRequired(req) && old(db.ActiveKey(userId)).None? ==>
              r == Failure(HttpError(400, "No active API keys found"))
    ensures r.Failure? && r.error.status == 400 ==> gateway.requests == old(gateway.requests)
    ensures !MissingRequired(req) && old(db.ActiveKey(userId)).Some? ==>
              gateway.requests == old(gateway.requests) +
                [PlaceOrderRequest(CredentialsOf(old(db.ActiveKey(userId)).value), OrderData(req))]
              && (r.Failure? ==> r.error.status == 500)
    ensures !MissingRequired(req) && old(db.ActiveKey(userId)).Some? ==>
              match gateway.placeReply(|old(gateway.requests)|, CredentialsOf(old(db.ActiveKey(userId)).value), OrderData(req))
              case Success(o) => r == Success(o)
              case Failure(m) => r == Failure(HttpError(500, m))
    ensures r.Failure? ==> db.trades == old(db.trades)
    ensures r.Success? ==> !MissingRequired(req) && db.trades == old(db.trades) + [OrderTrade(userId, req, r.value, now)]
  {
    if MissingRequired(req) {
      return Failure(HttpError(400, "Missing required fields"));
    }
    var key := db.ActiveKey(userId);
    if key.None? {
      return Failure(HttpError(400, "No active API keys found"));
    }
    var orderData := PrepareOrder(req);
    var orderResult := gateway.CreateOrder(CredentialsOf(key.value), orderData);
    if orderResult.Failure? {
      return Failure(HttpError(500, orderResult.error));
    }
    var trade := OrderTrade(userId, req, orderResult.value, now);
    ManualTradeKeepsConsistent(db.signals, db.trades, db.nextSignalId, trade);
    db.InsertTrade(trade);
    r := Success(orderResult.value);
  }

  // ---------------------------------------------------------------------
  // DELETE /order/:symbol/:orderId (server/routes/trading.js:156-186)

  method CancelOrder(db: Database, gateway: Gateway, userId: int, symbol: string, orderId: int)
    returns (r: Result<OrderResult, HttpError>)
    requires db.Valid()
    modifies db, gateway
    ensures db.Valid()
    ensures db.signals == old(db.signals) && db.apiKeys == old(db.apiKeys) && db.nextSignalId == old(db.nextSignalId)
    ensures old(db.ActiveKey(userId)).None? ==>
              r == Failure(HttpError(400, "No active API keys found"))
              && gateway.requests == old(gateway.requests)
    ensures old(db.ActiveKey(userId)).Some? ==>
              gateway.requests == old(gateway.requests) +
                [CancelOrderRequest(CredentialsOf(old(db.ActiveKey(userId)).value), symbol, orderId)]
              && (r.Failure? ==> r.error.status == 500)
    ensures old(db.ActiveKey(userId)).Some? ==>
              match gateway.cancelReply(|old(gateway.requests)|, CredentialsOf(old(db.ActiveKey(userId)).value), symbol, orderId)
              case Success(o) => r == Success(o)
              case Failure(m) => r == Failure(HttpError(500, m))
    ensures r.Failure? ==> db.trades == old(db.trades)
    ensures r.Success? ==> db.trades == CancelMatching(old(db.trades), orderId, userId)
  {
    var key := db.ActiveKey(userId);
    if key.None? {
      return Failure(HttpError(400, "No active API keys found"));
    }
    var cancelResult := gateway.CancelOrder(CredentialsOf(key.value), symbol, orderId);
    if cancelResult.Failure? {
      return Failure(HttpError(500, cancelResult.error));
    }
    db.CancelTrades(orderId, userId);
    r := Success(cancelResult.value);
  }

  /** Cancelling touches only the caller's own rows for that order: another
      user's row with the same order id keeps its status. */
  lemma CancelSparesOtherUsers(trades: seq<TradeRow>, orderId: int, userId: int, i: nat)
    requires i < |trades| && trades[i].userId != userId
    ensures CancelMatching(trades, orderId, userId)[i] == trades[i]
  {
  }

  /** Cancelling twice is the same as cancelling once. */
  lemma {:induction false} CancelIdempotent(trades: seq<TradeRow>, orderId: int, userId: int)
    ensures CancelMatching(CancelMatching(trades, orderId, userId), orderId, userId)
              == CancelMatching(trades, orderId, userId)
  {
    var once := CancelMatching(trades, orderId, userId);
    var twice := CancelMatching(once, orderId, userId);
    assert forall i | 0 <= i < |trades| :: twice[i] == once[i];
  }

  // ---------------------------------------------------------------------
  // GET /positions (server/routes/trading.js:239-264)

  /** `positions.filter(pos => pos.positionAmt !== 0)`. */
  function ActivePositions(positions: seq<Position>): (r: seq<Position>)
    ensures |r| <= |positions|
    ensures forall p | p in r :: p in positions && p.positionAmt != 0.0
    ensures forall p | p in positions && p.positionAmt != 0.0 :: p in r
  {
    if |positions| == 0 then []
    else if positions[0].positionAmt != 0.0 then [positions[0]] + ActivePositions(positions[1..])
    else ActivePositions(positions[1..])
  }

  /** The filter keeps the exchange's order: filtering a concatenation is
      the concatenation of the filtered parts. */
  lemma {:induction false} ActivePositionsDistributes(a: seq<Position>, b: seq<Position>)
    ensures ActivePositions(a + b) == ActivePositions(a) + ActivePositions(b)
  {
    if |a| == 0 {
      assert a + b == b;
    } else {
      assert (a + b)[1..] == a[1..] + b;
      ActivePositionsDistributes(a[1..], b);
    }
  }

  /** Filtering an already filtered list changes nothing. */
  lemma {:induction false} ActivePositionsIdempotent(positions: seq<Position>)
    ensures ActivePositions(ActivePositions(positions)) == ActivePositions(positions)
  {
    if |positions| > 0 {
      ActivePositionsIdempotent(positions[1..]);
    }
  }

  method GetPositions(db: Database, gateway: Gateway, userId: int) returns (r: Result<seq<Position>, HttpError>)
    modifies gateway
    ensures old(db.ActiveKey(userId)).None? ==>
              r == Failure(HttpError(400, "No active API keys found"))
              && gateway.requests == old(gateway.requests)
    ensures old(db.ActiveKey(userId)).Some? ==>
              var creds := CredentialsOf(old(db.ActiveKey(userId)).value);
              && gateway.requests == old(gateway.requests) + [PositionsRequest(creds)]
              && match gateway.positionsReply(|old(gateway.requests)|, creds)
                 case Success(positions) => r == Success(ActivePositions(positions))
                 case Failure(message) => r == Failure(HttpError(500, message))
  {
    var key := db.ActiveKey(userId);
    if key.None? {
      return Failure(HttpError(400, "No active API keys found"));
    }
    var positions := gateway.Positions(CredentialsOf(key.value));
    if positions.Failure? {
      return Failure(HttpError(500, positions.error));
    }
    r := Success(ActivePositions(positions.value));
  }
}
