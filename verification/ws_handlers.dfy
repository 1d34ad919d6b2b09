/** The WebSocket side of the server: each connected client carries a set of
    subscription keys and optional signal filters that its messages update,
    and the broadcasts deliver an event to exactly the open clients whose
    subscriptions (and filters) match it.

    Outgoing messages are recorded in the client's outbox, in order; their
    timestamps are not modelled. */
module WsHandlers {
  import opened Wrappers
  import opened JsValues

  /** `{ symbols, signalTypes }`: an empty list lets everything through. */
  datatype Filters = Filters(symbols: seq<string>, signalTypes: seq<string>)

  /** The `payload` of an incoming message, reduced to the properties the
      handlers read (`None` when absent). */
  datatype Payload = Payload(
    symbol: Option<string>,
    symbols: Option<seq<string>>,
    signalTypes: Option<seq<string>>,
    userId: Option<string>)

  /** A parsed incoming message; `payload` is `None` when it has none. */
  datatype Message = Message(msgType: string, payload: Option<Payload>)

  /** The broadcast events, reduced to the properties delivery depends on
      plus an opaque body. */
  datatype SignalEvent = SignalEvent(symbol: string, signalType: string, body: string)
  datatype TradeEvent = TradeEvent(userId: string, body: string)

  datatype Outgoing =
    | Welcome
    | Pong
    | Error(message: string)
    | Confirmed(subscription: string, filters: Option<Filters>)
    | SignalMessage(signal: SignalEvent)
    | TradeMessage(trade: TradeEvent)
    | TickerMessage(symbol: string, data: string)

  /** The subscription keys. */
  function TickerKey(symbol: string): (k: string)
    ensures |k| == 7 + |symbol| && k[..7] == "ticker_" && k[7..] == symbol
  {
    "ticker_" + symbol
  }

  function TradesKey(userId: string): (k: string)
    ensures |k| == 7 + |userId| && k[..7] == "trades_" && k[7..] == userId
  {
    "trades_" + userId
  }

  const SignalsKey := "signals"

  /** The three kinds of keys never collide, and each kind determines its
      symbol or user: a ticker subscription can never receive trades, and
      subscribing to one symbol never subscribes to another. */
  lemma KeysAreDistinct(symbol: string, other: string, userId: string, otherUser: string)
    ensures TickerKey(symbol) != TradesKey(userId)
    ensures TickerKey(symbol) != SignalsKey && TradesKey(userId) != SignalsKey
    ensures TickerKey(symbol) == TickerKey(other) <==> symbol == other
    ensures TradesKey(userId) == TradesKey(otherUser) <==> userId == otherUser
  {
    assert TickerKey(symbol)[1] == 'i' && TradesKey(userId)[1] == 'r';
    assert SignalsKey[1] == 'i' && SignalsKey[0] == 's';
    assert TickerKey(symbol)[0] == 't' && TradesKey(userId)[0] == 't';
    if TickerKey(symbol) == TickerKey(other) {
      assert symbol == TickerKey(symbol)[7..];
    }
    if TradesKey(userId) == TradesKey(otherUser) {
      assert userId == TradesKey(userId)[7..];
    }
  }

  // ---------------------------------------------------------------------
  // Delivery rules (server/websocket/handlers.js:137-197)

  /** broadcastSignal: the client is open and subscribed to signals, and
      each non-empty filter list contains the signal's value. */
  predicate DeliversSignal(open: bool, subscriptions: set<string>, filters: Option<Filters>, s: SignalEvent) {
    && open && SignalsKey in subscriptions
    && (filters.Some? ==>
          && (|filters.value.symbols| == 0 || s.symbol in filters.value.symbols)
          && (|filters.value.signalTypes| == 0 || s.signalType in filters.value.signalTypes))
  }

  /** broadcastTrade: open and subscribed to the trade's user. */
  predicate DeliversTrade(open: bool, subscriptions: set<string>, t: TradeEvent) {
    open && TradesKey(t.userId) in subscriptions
  }

  /** broadcastTicker: open and subscribed to the symbol. */
  predicate DeliversTicker(open: bool, subscriptions: set<string>, symbol: string) {
    open && TickerKey(symbol) in subscriptions
  }

  /** Filters only ever narrow delivery, and empty filter lists are the
      same as no filters. */
  lemma FiltersNarrow(open: bool, subscriptions: set<string>, f: Filters, s: SignalEvent)
    ensures DeliversSignal(open, subscriptions, Some(f), s) ==> DeliversSignal(open, subscriptions, None, s)
    ensures DeliversSignal(open, subscriptions, Some(Filters([], [])), s) == DeliversSignal(open, subscriptions, None, s)
  {
  }

  /** A closed client receives nothing. */
  lemma ClosedReceivesNothing(subscriptions: set<string>, filters: Option<Filters>, s: SignalEvent, t: TradeEvent, symbol: string)
    ensures !DeliversSignal(false, subscriptions, filters, s)
    ensures !DeliversTrade(false, subscriptions, t)
    ensures !DeliversTicker(false, subscriptions, symbol)
  {
  }

  /** A client subscribed only to trades (of any users) and tickers never
      receives signals, and a ticker subscription never receives trades. */
  lemma SubscriptionsAreSeparate(open: bool, symbols: set<string>, users: set<string>, t: TradeEvent, s: SignalEvent)
    requires t.userId !in users
    ensures var subs := (set x | x in symbols :: TickerKey(x)) + (set u | u in users :: TradesKey(u));
            && !DeliversTrade(open, subs, t)
            && !DeliversSignal(open, subs, None, s)
  {
    var subs := (set x | x in symbols :: TickerKey(x)) + (set u | u in users :: TradesKey(u));
    forall x | x in symbols
      ensures TickerKey(x) != TradesKey(t.userId) && TickerKey(x) != SignalsKey
    {
      KeysAreDistinct(x, x, t.userId, t.userId);
    }
    forall u | u in users
      ensures TradesKey(u) != TradesKey(t.userId) && TradesKey(u) != SignalsKey
    {
      KeysAreDistinct(u, u, u, t.userId);
    }
  }

  // ---------------------------------------------------------------------
  // A connected client and its handlers (server/websocket/handlers.js:1-134)

  class Client {
    /** `readyState === WebSocket.OPEN`. */
    var open: bool
    /** `ws.subscriptions`; a client that never subscribed has none. */
    var subscriptions: set<string>
    var signalFilters: Option<Filters>
    var outbox: seq<Outgoing>

    /** A new connection is greeted with the welcome message. */
    constructor()
      ensures open && subscriptions == {} && signalFilters.None? && outbox == [Welcome]
    {
      open := true;
      subscriptions := {};
      signalFilters := None;
      outbox := [Welcome];
    }

    method Send(m: Outgoing)
      modifies this
      ensures outbox == old(outbox) + [m]
      ensures open == old(open) && subscriptions == old(subscriptions) && signalFilters == old(signalFilters)
    {
      outbox := outbox + [m];
    }

    /** The `message` listener: a message that does not parse (`None`), or
        a subscription without a payload, is answered with "Invalid message
        format" and changes nothing else. */
    method OnMessage(parsed: Option<Message>)
      modifies this
      ensures open == old(open)
      ensures parsed.None? ==>
                outbox == old(outbox) + [Error("Invalid message format")]
                && subscriptions == old(subscriptions) && signalFilters == old(signalFilters)
      ensures parsed.Some? ==> HandledAs(parsed.value, old(subscriptions), old(signalFilters), old(outbox))
    {
      if parsed.None? {
        Send(Error("Invalid message format"));
      } else {
        HandleMessage(parsed.value);
      }
    }

    /** The state after handling `m` from the given state. */
    ghost predicate HandledAs(m: Message, subs0: set<string>, filters0: Option<Filters>, outbox0: seq<Outgoing>)
      reads this
    {
      var subscribes := m.msgType in {"subscribe_ticker", "subscribe_signals", "subscribe_trades"};
      if subscribes && m.payload.None? then
        outbox == outbox0 + [Error("Invalid message format")] && subscriptions == subs0 && signalFilters == filters0
      else if m.msgType == "subscribe_ticker" then
        var symbol := m.payload.value.symbol;
        if !Present(symbol) then
          outbox == outbox0 + [Error("Symbol is required for ticker subscription")]
          && subscriptions == subs0 && signalFilters == filters0
        else
          outbox == outbox0 + [Confirmed(TickerKey(symbol.value), None)]
          && subscriptions == subs0 + {TickerKey(symbol.value)} && signalFilters == filters0
      else if m.msgType == "subscribe_signals" then
        var f := Filters(m.payload.value.symbols.GetOr([]), m.payload.value.signalTypes.GetOr([]));
        outbox == outbox0 + [Confirmed(SignalsKey, Some(f))]
        && subscriptions == subs0 + {SignalsKey} && signalFilters == Some(f)
      else if m.msgType == "subscribe_trades" then
        var userId := m.payload.value.userId;
        if !Present(userId) then
          outbox == outbox0 + [Error("User ID is required for trades subscription")]
          && subscriptions == subs0 && signalFilters == filters0
        else
          outbox == outbox0 + [Confirmed(TradesKey(userId.value), None)]
          && subscriptions == subs0 + {TradesKey(userId.value)} && signalFilters == filters0
      else if m.msgType == "ping" then
        outbox == outbox0 + [Pong] && subscriptions == subs0 && signalFilters == filters0
      else
        outbox == outbox0 + [Error("Unknown message type: " + m.msgType)]
        && subscriptions == subs0 && signalFilters == filters0
    }

    /** `handleWebSocketMessage`: dispatch on the message type. */
    method HandleMessage(m: Message)
      modifies this
      ensures open == old(open)
      ensures HandledAs(m, old(subscriptions), old(signalFilters), old(outbox))
    {
      match m.msgType {
        case "subscribe_ticker" =>
          if m.payload.None? {
            Send(Error("Invalid message format"));
          } else {
            SubscribeTicker(m.payload.value);
          }
        case "subscribe_signals" =>
          if m.payload.None? {
            Send(Error("Invalid message format"));
          } else {
            SubscribeSignals(m.payload.value);
          }
        case "subscribe_trades" =>
          if m.payload.None? {
            Send(Error("Invalid message format"));
          } else {
            SubscribeTrades(m.payload.value);
          }
        case "ping" =>
          Send(Pong);
        case _ =>
          Send(Error("Unknown message type: " + m.msgType));
      }
    }

    /** `handleTickerSubscription`. */
    method SubscribeTicker(payload: Payload)
      modifies this
      ensures open == old(open) && signalFilters == old(signalFilters)
      ensures !Present(payload.symbol) ==>
                subscriptions == old(subscriptions)
                && outbox == old(outbox) + [Error("Symbol is required for ticker subscription")]
      ensures Present(payload.symbol) ==>
                subscriptions == old(subscriptions) + {TickerKey(payload.symbol.value)}
                && outbox == old(outbox) + [Confirmed(TickerKey(payload.symbol.value), None)]
    {
      if !Present(payload.symbol) {
        Send(Error("Symbol is required for ticker subscription"));
        return;
      }
      var key := TickerKey(payload.symbol.value);
      subscriptions := subscriptions + {key};
      Send(Confirmed(key, None));
    }

    /** `handleSignalsSubscription`: the filter lists default to empty, and
        the new filters replace any earlier ones. */
    method SubscribeSignals(payload: Payload)
      modifies this
      ensures open == old(open)
      ensures var f := Filters(payload.symbols.GetOr([]), payload.signalTypes.GetOr([]));
              && subscriptions == old(subscriptions) + {SignalsKey}
              && signalFilters == Some(f)
              && outbox == old(outbox) + [Confirmed(SignalsKey, Some(f))]
    {
      var symbols := payload.symbols.GetOr([]);
      var signalTypes := payload.signalTypes.GetOr([]);
      subscriptions := subscriptions + {SignalsKey};
      signalFilters := Some(Filters(symbols, signalTypes));
      Send(Confirmed(SignalsKey, Some(Filters(symbols, signalTypes))));
    }

    /** `handleTradesSubscription`. */
    method SubscribeTrades(payload: Payload)
      modifies this
      ensures open == old(open) && signalFilters == old(signalFilters)
      ensures !Present(payload.userId) ==>
                subscriptions == old(subscriptions)
                && outbox == old(outbox) + [Error("User ID is required for trades subscription")]
      ensures Present(payload.userId) ==>
                subscriptions == old(subscriptions) + {TradesKey(payload.userId.value)}
                && outbox == old(outbox) + [Confirmed(TradesKey(payload.userId.value), None)]
    {
      if !Present(payload.userId) {
        Send(Error("User ID is required for trades subscription"));
        return;
      }
      var key := TradesKey(payload.userId.value);
      subscriptions := subscriptions + {key};
      Send(Confirmed(key, None));
    }
  }

  /** Subscribing to the same ticker twice leaves the same subscriptions as
      subscribing once. */
  method SubscribeTickerTwice(c: Client, symbol: string)
    requires |symbol| > 0
    modifies c
    ensures c.subscriptions == old(c.subscriptions) + {TickerKey(symbol)}
  {
    var payload := Payload(Some(symbol), None, None, None);
    c.SubscribeTicker(payload);
    ghost var once := c.subscriptions;
    c.SubscribeTicker(payload);
    assert c.subscriptions == once;
  }

  // ---------------------------------------------------------------------
  // Broadcasts over the connected clients (`wss.clients.forEach`)

  /** `broadcastSignal`: every client the rule selects gets the signal, once;
      nothing else changes. */
  method BroadcastSignal(clients: seq<Client>, s: SignalEvent)
    requires forall i, j | 0 <= i < j < |clients| :: clients[i] != clients[j]
    modifies set c | c in clients
    ensures forall c | c in clients ::
              && c.open == old(c.open) && c.subscriptions == old(c.subscriptions)
              && c.signalFilters == old(c.signalFilters)
              && c.outbox == old(c.outbox) +
                   (if DeliversSignal(old(c.open), old(c.subscriptions), old(c.signalFilters), s)
                    then [SignalMessage(s)] else [])
  {
    var i := 0;
    while i < |clients|
      invariant 0 <= i <= |clients|
      invariant forall c | c in clients ::
                  c.open == old(c.open) && c.subscriptions == old(c.subscriptions)
                  && c.signalFilters == old(c.signalFilters)
      invariant forall k | 0 <= k < i ::
                  clients[k].outbox == old(clients[k].outbox) +
                    (if DeliversSignal(old(clients[k].open), old(clients[k].subscriptions), old(clients[k].signalFilters), s)
                     then [SignalMessage(s)] else [])
      invariant forall k | i <= k < |clients| :: clients[k].outbox == old(clients[k].outbox)
    {
      var client := clients[i];
      if client.open && SignalsKey in client.subscriptions {
        var shouldSend := true;
        if client.signalFilters.Some? {
          var symbols, signalTypes := client.signalFilters.value.symbols, client.signalFilters.value.signalTypes;
          if |symbols| > 0 && s.symbol !in symbols {
            shouldSend := false;
          }
          if |signalTypes| > 0 && s.signalType !in signalTypes {
            shouldSend := false;
          }
        }
        if shouldSend {
          client.Send(SignalMessage(s));
        }
      }
      i := i + 1;
    }
  }

  /** `broadcastTrade`. */
  method BroadcastTrade(clients: seq<Client>, t: TradeEvent)
    requires forall i, j | 0 <= i < j < |clients| :: clients[i] != clients[j]
    modifies set c | c in clients
    ensures forall c | c in clients ::
              && c.open == old(c.open) && c.subscriptions == old(c.subscriptions)
              && c.signalFilters == old(c.signalFilters)
              && c.outbox == old(c.outbox) +
                   (if DeliversTrade(old(c.open), old(c.subscriptions), t) then [TradeMessage(t)] else [])
  {
    var i := 0;
    while i < |clients|
      invariant 0 <= i <= |clients|
      invariant forall c | c in clients ::
                  c.open == old(c.open) && c.subscriptions == old(c.subscriptions)
                  && c.signalFilters == old(c.signalFilters)
      invariant forall k | 0 <= k < i ::
                  clients[k].outbox == old(clients[k].outbox) +
                    (if DeliversTrade(old(clients[k].open), old(clients[k].subscriptions), t) then [TradeMessage(t)] else [])
      invariant forall k | i <= k < |clients| :: clients[k].outbox == old(clients[k].outbox)
    {
      var client := clients[i];
      if client.open && TradesKey(t.userId) in client.subscriptions {
        client.Send(TradeMessage(t));
      }
      i := i + 1;
    }
  }

  /** `broadcastTicker`. */
  method BroadcastTicker(clients: seq<Client>, symbol: string, data: string)
    requires forall i, j | 0 <= i < j < |clients| :: clients[i] != clients[j]
    modifies set c | c in clients
    ensures forall c | c in clients ::
              && c.open == old(c.open) && c.subscriptions == old(c.subscriptions)
              && c.signalFilters == old(c.signalFilters)
              && c.outbox == old(c.outbox) +
                   (if DeliversTicker(old(c.open), old(c.subscriptions), symbol) then [TickerMessage(symbol, data)] else [])
  {
    var i := 0;
    while i < |clients|
      invariant 0 <= i <= |clients|
      invariant forall c | c in clients ::
                  c.open == old(c.open) && c.subscriptions == old(c.subscriptions)
                  && c.signalFilters == old(c.signalFilters)
      invariant forall k | 0 <= k < i ::
                  clients[k].outbox == old(clients[k].outbox) +
                    (if DeliversTicker(old(clients[k].open), old(clients[k].subscriptions), symbol)
                     then [TickerMessage(symbol, data)] else [])
      invariant forall k | i <= k < |clients| :: clients[k].outbox == old(clients[k].outbox)
    {
      var client := clients[i];
      if client.open && TickerKey(symbol) in client.subscriptions {
        client.Send(TickerMessage(symbol, data));
      }
      i := i + 1;
    }
  }
}
