/** The exchange gateway as the routes see it: a signed request goes out with
    the user's credentials and either a reply or an error message comes back.

    The venue is outside the model. A gateway is built over three reply
    functions that stand for whatever the venue answers to the n-th request;
    the gateway records every request it sends, so a proof can say that a
    handler did, or did not, reach the exchange. */
module Exchange {
  import opened Wrappers

  /** The credentials `setCredentials` installs: the key pair and whether the
      testnet or the production base URL is used. */
  datatype Credentials = Credentials(apiKey: string, secretKey: string, isTestnet: bool)

  /** The `orderData` object handed to `createOrder`. Optional properties are
      `None` when the object does not carry them. */
  datatype OrderSpec = OrderSpec(
    symbol: string,
    side: string,
    orderType: string,
    quantity: string,
    timeInForce: Option<string>,
    price: Option<string>,
    stopPrice: Option<string>)

  /** The fields of an order reply the routes read; the string fields are
      `None` when the reply lacks them. */
  datatype OrderResult = OrderResult(
    orderId: int,
    executedQty: Option<string>,
    avgPrice: Option<string>,
    commission: Option<string>,
    commissionAsset: Option<string>,
    status: string)

  datatype Position = Position(symbol: string, positionAmt: real)

  datatype Request =
    | PlaceOrderRequest(creds: Credentials, spec: OrderSpec)
    | CancelOrderRequest(creds: Credentials, symbol: string, orderId: int)
    | PositionsRequest(creds: Credentials)

  class Gateway {
    /** Every request sent so far, oldest first. */
    var requests: seq<Request>

    /** The venue's answer to the n-th request. */
    const placeReply: (nat, Credentials, OrderSpec) -> Result<OrderResult, string>
    const cancelReply: (nat, Credentials, string, int) -> Result<OrderResult, string>
    const positionsReply: (nat, Credentials) -> Result<seq<Position>, string>

    constructor(
      placeReply: (nat, Credentials, OrderSpec) -> Result<OrderResult, string>,
      cancelReply: (nat, Credentials, string, int) -> Result<OrderResult, string>,
      positionsReply: (nat, Credentials) -> Result<seq<Position>, string>)
      ensures requests == []
      ensures this.placeReply == placeReply && this.cancelReply == cancelReply
      ensures this.positionsReply == positionsReply
    {
      requests := [];
      this.placeReply := placeReply;
      this.cancelReply := cancelReply;
      this.positionsReply := positionsReply;
    }

    method CreateOrder(creds: Credentials, spec: OrderSpec) returns (r: Result<OrderResult, string>)
      modifies this
      ensures requests == old(requests) + [PlaceOrderRequest(creds, spec)]
      ensures r == placeReply(|old(requests)|, creds, spec)
    {
      r := placeReply(|requests|, creds, spec);
      requests := requests + [PlaceOrderRequest(creds, spec)];
    }

    method CancelOrder(creds: Credentials, symbol: string, orderId: int) returns (r: Result<OrderResult, string>)
      modifies this
      ensures requests == old(requests) + [CancelOrderRequest(creds, symbol, orderId)]
      ensures r == cancelReply(|old(requests)|, creds, symbol, orderId)
    {
      r := cancelReply(|requests|, creds, symbol, orderId);
      requests := requests + [CancelOrderRequest(creds, symbol, orderId)];
    }

    method Positions(creds: Credentials) returns (r: Result<seq<Position>, string>)
      modifies this
      ensures requests == old(requests) + [PositionsRequest(creds)]
      ensures r == positionsReply(|old(requests)|, creds)
    {
      r := positionsReply(|requests|, creds);
      requests := requests + [PositionsRequest(creds)];
    }
  }
}
