# AI trading signals: a verified model of the signal pipeline and its routes

This project models the core of a crypto-futures trading assistant.

- **Indicators.** From a candle history the AI service computes technical indicators: SMA, EMA, MACD, RSI, Bollinger bands, the stochastic oscillator and ATR.
- **Signal synthesis.** A weighted vote over four rules (RSI, MACD, SMA crossover, Bollinger) decides BUY, SELL or HOLD. The vote fixes the confidence, the stop-loss and take-profit levels and the risk/reward ratio.
- **Storage.** A directional call is stored as a signal that expires four hours later.
- **HTTP routes.** `GET /signals/active` lists the live signals best-first. `POST /signals/:id/execute` turns a signal into a market order and a trade row. The trading routes place an order, cancel one and list open positions.
- **WebSocket handlers.** They keep each client's subscriptions and signal filters. The three broadcasts deliver an event to exactly the matching open clients.
- **Client helper.** The price-change helper computes the change and the percentage change.

How the system is represented:

- The database tables are the fields of a `Database` object: `signals` is a map keyed by id, `trades` a sequence in insertion order, `apiKeys` a sequence. The route handlers update these fields in place.
- The exchange is a `Gateway` object. It logs every request it is sent, and its replies are fixed functions of the request and its position in the log. The model can therefore state exactly which requests a route sends, and in which order.
- A JavaScript number slot that may be missing is a `Num`: `Undefined`, `Null`, `NaN` or `Finite(r)`. Truthiness, `!== null` and the coercing `<` and `>` are modelled explicitly.
- A request-body string property is an `Option<string>`. It is `None` when the body lacks the property, and it is truthy when present and non-empty.
- Time is a parameter `now`, in milliseconds.

The main properties proved:

- The indicators stay within their natural ranges:
  - SMA and EMA stay within the range of their inputs;
  - RSI lies in [0, 100], and so do %K and %D on candles that close within their range;
  - ATR is non-negative and at least the mean high-low range;
  - the Bollinger bands are symmetric about the SMA.
- For the vote:
  - the strength is the buy weight plus the sell weight and never exceeds 0.9;
  - a call is directional exactly when a strict majority exceeds 0.4;
  - the confidence exceeds 40 exactly for directional calls and never exceeds 90;
  - the target is always 1.5 times as far from the entry as the stop.
- Every loop-based computation equals its reference function.
- The tables stay consistent:
  - a signal is linked to at most one trade;
  - executing it twice is refused before the exchange is contacted (assuming every database write succeeds).
- Each route's guards, in order, precede any exchange request. A failed exchange call writes nothing.
- A broadcast reaches exactly the clients its rule selects, and each of them once.

## Model

| member | source | states |
|---|---|---|
| Indicators.Sma | server/services/ai.js:76-80 | the SMA is `null` exactly when there are fewer values than the period |
| Indicators.SmaWithinWindow | server/services/ai.js:76-80 | the SMA lies between the least and the greatest of the last `period` values |
| Indicators.Ema | server/services/ai.js:82-93 | the EMA is `null` exactly when there are fewer values than the period |
| Indicators.EmaWithinRange | server/services/ai.js:82-93 | the EMA, seeded with the first-window mean and smoothed by 2/(period+1), lies within the range of the values |
| Indicators.EmaOfConstantSeries | server/services/ai.js:82-93 | the EMA of a constant series is that constant |
| Indicators.CalculateEma | server/services/ai.js:82-93 | the smoothing loop computes the EMA |
| Indicators.MacdLine | server/services/ai.js:102-106 | the MACD line has one entry per prefix of at least 26 closes |
| Indicators.MacdIsLastOfLine | server/services/ai.js:95-111 | a non-null MACD is the last entry of the MACD line, and its signal line is a number once there are 34 closes |
| Indicators.MacdNullOnZeroEma | server/services/ai.js:99 | a zero (falsy) fast EMA makes both MACD and signal `null` |
| Indicators.CalculateMacd | server/services/ai.js:95-111 | the loop building the MACD line computes the MACD and its signal |
| Indicators.RsiInRange | server/services/ai.js:113-144 | the RSI, when a number, lies in [0, 100], and it is a number below 100 whenever the smoothed loss is positive |
| Indicators.RsiOfRisingSeries | server/services/ai.js:138-143 | a strictly rising series has RSI 100, because its average loss is zero |
| Indicators.RsiOfFallingSeries | server/services/ai.js:138-143 | a strictly falling series has RSI 0 |
| Indicators.SeedSums | server/services/ai.js:116-127 | the first loop sums the gains and the losses over the first `period` changes |
| Indicators.WilderUpdate | server/services/ai.js:131-139 | one Wilder smoothing step on the average gain and the average loss |
| Indicators.Smooth | server/services/ai.js:129-140 | the smoothing loop yields the averages at the last close |
| Indicators.Rsi | server/services/ai.js:113-114 | the RSI is `null` exactly when there are fewer than period+1 closes |
| Indicators.CalculateRsi | server/services/ai.js:113-144 | the two loops compute the RSI, with `null` on short input |
| Indicators.BandsAroundSma | server/services/ai.js:146-158 | the bands are numbers, lie either side of the SMA and are equally far from it |
| Indicators.StochasticInRange | server/services/ai.js:160-188 | on candles that close within their range, %K and %D, when numbers, lie in [0, 100] |
| Indicators.PercentDInRange | server/services/ai.js:172-185 | %D, the SMA over the %K series, lies in [0, 100] when it is a number |
| Indicators.CalculateStochastic | server/services/ai.js:160-188 | the loop building the %K series computes %K and %D |
| Indicators.Atr | server/services/ai.js:190-202 | ATR is `null` exactly when there are fewer than period+1 closes |
| Indicators.AtrBounds | server/services/ai.js:190-202 | ATR is non-negative and at least the mean high-low range of the last `period` candles |
| Indicators.CalculateAtr | server/services/ai.js:190-202 | the true-range loop computes the ATR |
| Indicators.TechnicalIndicators | server/services/ai.js:32-37 | fewer than 50 candles leave every indicator absent |
| Indicators.FullHistoryAssignsEveryField | server/services/ai.js:39-74 | with 50 candles or more every indicator is set, and MACD is `null` exactly when an EMA is zero |
| Indicators.CalculateTechnicalIndicators | server/services/ai.js:32-74 | computing the indicators one by one gives the indicator record |
| Synthesis.StrengthIsSumOfWeights | server/services/ai.js:241-292 | the strength is the buy weight plus the sell weight, both non-negative, with a sum of at most 0.9 |
| Synthesis.WeightsPartitionTotal | server/services/ai.js:288-292 | the buy and sell weights partition the total weight of the votes |
| Synthesis.WeightOfVotes | server/services/ai.js:241-292 | each side's weight is the sum of what the four rules contribute to that side |
| Synthesis.DecisionAndConfidence | server/services/ai.js:294-304 | BUY or SELL exactly when that side has a strict majority above 0.4; confidence is the weight times 100, or 30 for HOLD; confidence exceeds 40 exactly for directional calls and never exceeds 90 |
| Synthesis.RiskLevels | server/services/ai.js:306-319 | HOLD has no levels; otherwise the target is 1.5 times as far from the entry as the stop, on the other side |
| Synthesis.RiskRewardOfAnalysis | server/services/ai.js:327-328 | the risk/reward ratio is 1.5 exactly for directional calls with non-zero levels, and `null` otherwise |
| Synthesis.BollingerNeverVotes | server/services/ai.js:275-285 | on computed indicators the Bollinger rule never votes, because its price stand-in, the SMA 20, lies between its own bands |
| Synthesis.AtrFallback | server/services/ai.js:307 | without a truthy ATR the levels are 4% and 6% of the entry away |
| Synthesis.ShortHistorySells | server/services/ai.js:242-303 | with all indicators absent, the MACD and SMA comparisons are false and vote SELL, giving SELL at 0.45 with entry 0 and no ratio |
| Synthesis.OversoldUptrendBuys | server/services/ai.js:241-334 | an oversold RSI in an uptrend gives BUY 0.75 at confidence 75 with stop 101, target 111 and ratio 1.5 |
| Synthesis.CollectVotes | server/services/ai.js:241-285 | the four rule blocks push the votes in rule order, and the running strength is their total weight |
| Synthesis.Decision | server/services/ai.js:294-304 | the decision block picks the signal type and its confidence |
| Synthesis.AnalyzeMarketConditions | server/services/ai.js:236-335 | the procedure yields the analysis record: votes, weights, decision, levels, ratio and strength capped at 1 |
| SignalService.StoredSignal | server/services/ai.js:339-363 | the stored row expires four hours after `now` |
| SignalService.StoredSignalLiveWindow | server/services/ai.js:339-341 | a stored signal is unexecuted and live exactly during the four hours after its creation |
| SignalService.GenerateSignal | server/services/ai.js:204-233 | no models fails with "No active AI models available"; otherwise the analysis of the indicators is returned, and only a directional call is stored, under the next id |
| Store.FirstActiveKey | server/routes/signals.js:182-189 | the key found is an active key of the user, and none is found exactly when the user has no active key |
| Store.CancelMatching | server/routes/trading.js:176-179 | exactly the caller's rows for the order become CANCELED, and only their status changes |
| Store.AtMostOneExecution | server/routes/signals.js:177-232 | in consistent tables a signal has at most one trade executing it, and an unexecuted signal has none |
| Store.InsertKeepsConsistent | server/services/ai.js:343-362 | storing a directional signal under the next id keeps the tables consistent |
| Store.ExecutionKeepsConsistent | server/routes/signals.js:206-232 | recording the trade of an unexecuted signal and marking the signal executed keeps the tables consistent |
| Store.ManualTradeKeepsConsistent | server/routes/trading.js:123-146 | a manual trade, which links no signal, keeps the tables consistent |
| Store.CancelKeepsConsistent | server/routes/trading.js:176-179 | cancelling keeps the tables consistent |
| Store.Database.FindLive | server/routes/signals.js:166-173 | the lookup finds the row exactly when it is stored, active and not expired |
| Store.Database.InsertSignal | server/services/ai.js:343-362 | the row is stored under the next auto-increment id, and the tables stay consistent |
| Store.Database.CancelTrades | server/routes/trading.js:176-179 | the trades table becomes the cancelled rows, and the tables stay consistent |
| SignalRoutes.TopExists | server/routes/signals.js:46 | every non-empty set of rows has a row ranking before all of them by confidence, then creation time, descending |
| SignalRoutes.SelectStep | server/routes/signals.js:46-49 | taking a top-ranked remaining row keeps the selection in rank order and complete |
| SignalRoutes.TopRows | server/routes/signals.js:46-49 | the rows are distinct table rows in rank order, as many as the limit allows, and a row left out ranks after all of them |
| SignalRoutes.ListActive | server/routes/signals.js:29-63 | only live rows that match the symbol and type filters are listed, each once, best first, at most `limit` (default 20) of them; a matching row is left out only when the limit is reached by rows ranking before it |
| SignalRoutes.OrderQuantity | server/routes/signals.js:199 | the body's quantity when truthy, otherwise "0.001" |
| SignalRoutes.MarketOrder | server/routes/signals.js:195-200 | a MARKET order for the signal's symbol and side, with no price, stop price or time in force |
| SignalRoutes.ExecutionTrade | server/routes/signals.js:206-226 | the trade links the signal, is manual, is on the futures account, and carries an execution time exactly when the order filled |
| SignalRoutes.Execute | server/routes/signals.js:160-243 | 404 when the signal is not live, then 400 when already executed, then 400 without an API key, all before any exchange request; otherwise the market order is sent, and the response follows the exchange's reply: a failure gives 500 with its message and writes nothing, a success returns the reply's order, appends the trade and marks the signal executed |
| SignalRoutes.ExecuteTwice | server/routes/signals.js:166-189 | after a successful execution, a second one at any later time is refused without contacting the exchange: "Signal already executed" while the signal is live, 404 once it has expired; the signal has exactly one trade |
| TradingRoutes.TimeInForce | server/routes/trading.js:81 | "GTC" only when the body has no timeInForce property |
| TradingRoutes.OrderData | server/routes/trading.js:103-117 | the order carries a price exactly when it is truthy and the type is LIMIT or STOP_LIMIT, and a stop price exactly when it is truthy and the type is STOP_MARKET or STOP_LIMIT |
| TradingRoutes.MarketOrdersCarryNoPrices | server/routes/trading.js:111-117 | a MARKET order never carries a price or a stop price |
| TradingRoutes.PrepareOrder | server/routes/trading.js:103-117 | building the order step by step gives the order data |
| TradingRoutes.OrderTrade | server/routes/trading.js:123-146 | the stored trade carries the request's fields, the reply's figures (0 when missing), and an execution time exactly when filled |
| TradingRoutes.CreateOrder | server/routes/trading.js:72-153 | 400 on a missing field, then 400 without an API key, neither contacting the exchange; otherwise the order is sent with the user's credentials and the response follows the exchange's reply: a failure gives 500 with its message and writes nothing, a success returns the reply and appends the trade |
| TradingRoutes.CancelOrder | server/routes/trading.js:156-186 | 400 without an API key and no request; otherwise the cancel request is sent and the response follows the exchange's reply: a failure gives 500 with its message and writes nothing, a success returns the reply and exactly the caller's rows for the order become CANCELED |
| TradingRoutes.CancelSparesOtherUsers | server/routes/trading.js:177 | another user's row with the same order id keeps its status |
| TradingRoutes.CancelIdempotent | server/routes/trading.js:176-179 | cancelling twice is the same as cancelling once |
| TradingRoutes.ActivePositions | server/routes/trading.js:257 | exactly the positions with a non-zero amount are kept |
| TradingRoutes.ActivePositionsDistributes | server/routes/trading.js:257 | the filter keeps the exchange's order |
| TradingRoutes.ActivePositionsIdempotent | server/routes/trading.js:257 | filtering twice is filtering once |
| TradingRoutes.GetPositions | server/routes/trading.js:239-264 | 400 without an API key and no request; otherwise the non-zero positions of the reply, or 500 on failure |
| Exchange.Gateway.CreateOrder | server/services/binance.js:91-93 | the order request is logged, and the reply is the exchange's answer to it |
| Exchange.Gateway.CancelOrder | server/services/binance.js:95-98 | the cancel request is logged, and the reply is the exchange's answer to it |
| Exchange.Gateway.Positions | server/services/binance.js:116-118 | the positions request is logged, and the reply is the exchange's answer to it |
| WsHandlers.KeysAreDistinct | server/websocket/handlers.js:84-127 | ticker, trades and signals keys never collide, and each key determines its symbol or user |
| WsHandlers.FiltersNarrow | server/websocket/handlers.js:144-155 | filters only narrow delivery, and empty filter lists are the same as none |
| WsHandlers.ClosedReceivesNothing | server/websocket/handlers.js:139 | a client that is not open receives no broadcast |
| WsHandlers.SubscriptionsAreSeparate | server/websocket/handlers.js:137-181 | ticker and other users' trade subscriptions never receive a user's trades or any signal |
| WsHandlers.Client.constructor | server/websocket/handlers.js:5-10 | a new connection has no subscriptions or filters and has been sent the welcome |
| WsHandlers.Client.OnMessage | server/websocket/handlers.js:12-24 | an unparseable message is answered with "Invalid message format" and changes nothing else; a parsed one is dispatched |
| WsHandlers.Client.HandleMessage | server/websocket/handlers.js:36-66 | the three subscription types go to their handlers, ping gets pong, anything else gets "Unknown message type: " and the type; a subscription without a payload is answered with "Invalid message format" |
| WsHandlers.Client.SubscribeTicker | server/websocket/handlers.js:68-91 | without a truthy symbol an error is sent and nothing is subscribed; otherwise `ticker_<symbol>` is added and confirmed |
| WsHandlers.Client.SubscribeSignals | server/websocket/handlers.js:93-109 | `signals` is added, the filters (lists defaulting to empty) replace any earlier ones, and both are confirmed |
| WsHandlers.Client.SubscribeTrades | server/websocket/handlers.js:111-134 | without a truthy user id an error is sent and nothing is subscribed; otherwise `trades_<userId>` is added and confirmed |
| WsHandlers.SubscribeTickerTwice | server/websocket/handlers.js:84 | subscribing to a ticker twice leaves the same subscriptions as once |
| WsHandlers.BroadcastSignal | server/websocket/handlers.js:137-166 | each open client subscribed to signals whose non-empty filters contain the signal's symbol and type gets it once; no other client gets anything, and no subscription changes |
| WsHandlers.BroadcastTrade | server/websocket/handlers.js:168-181 | each open client subscribed to the trade's user gets it once, and no other client gets anything |
| WsHandlers.BroadcastTicker | server/websocket/handlers.js:183-197 | each open client subscribed to the symbol gets it once, and no other client gets anything |
| PriceChange.CalculatePriceChange | src/utils/api.ts:113-124 | the change added to the previous price gives the current one; the percentage is zero for a zero previous price and otherwise times the previous price equals 100 times the change |
| PriceChange.PercentRecoversCurrent | src/utils/api.ts:117-118 | from a non-zero previous price, the percentage recovers the current price |
| PriceChange.PercentFollowsDirection | src/utils/api.ts:117-118 | from a positive previous price, the percentage is positive exactly when the price rose and negative exactly when it fell |
| PriceChange.NoChange | src/utils/api.ts:113-124 | an unchanged price gives zero change and zero percentage |

## Left out

- Floating point: numbers are mathematical reals, and rounding is not modelled. The model compares a sum such as 0.25 + 0.15 with 0.4 exactly, where IEEE arithmetic may differ. On computed indicators the Bollinger rule never votes (`Synthesis.BollingerNeverVotes`). So the only two-vote weights are 0.3 + 0.25, 0.3 + 0.2 and 0.25 + 0.2. A tie such as 0.3 + 0.15 against 0.25 + 0.2 cannot arise.
- `Math.sqrt` in the Bollinger bands is a function parameter, assumed non-negative on non-negative input.
- Kline parsing (`parseFloat` of string fields) and `parseFloat(pos.positionAmt)`: candles and position amounts are given as numbers. The volume column is unused and not modelled.
- Indicators.StochasticOf: a zero high-low range has no value in the model and becomes NaN, where JavaScript gives NaN or ±Infinity. None of the four rules reads the stochastic fields.
- The AI model registry (`initialize` and the `ai_models` query, server/services/ai.js:9-30): `GenerateSignal` takes the active models as a list, best first. Loading them, and the initialize-on-first-use, are not modelled.
- `getActiveSignals` (server/services/ai.js:366-373) is not modelled. No core route calls it, and its `user_id` column does not appear in the stored row.
- MySQL: the tables are in-memory values, so SQL text, connection handling and `updated_at` timestamps are not modelled. The schema is not part of this model, so its column defaults are assumed. For `signals`, `is_active` defaults to TRUE, `executed` to FALSE and `created_at` to the insert time. For `trades`, columns an INSERT leaves out are taken as `null` or `false`.
- `LIMIT 1` on `api_keys` returns the first active key in storage order. Among signals of equal confidence and creation time, the `ORDER BY` leaves the order open, and so does the model.
- `parseInt(limit)` on the `/active` query string: the limit is taken as a number already.
- JSON parsing of the stored `technical_indicators` and `market_conditions` columns: a stored row keeps them as values.
- The other routes of signals.js and trading.js (history, stats, single signal, generation, open orders, order history, account) are outside the modelled core.
- Exchange transport: HTTP, HMAC signing, `setCredentials` URLs and the exchange's own behaviour are not modelled. The exchange's replies are arbitrary functions fixed per gateway, and any thrown error becomes a 500 with its message.
- `storeSignal` expiry: `setHours(getHours() + 4)` is taken as exactly four hours in milliseconds. Daylight-saving shifts are not modelled.
- Concurrency: two simultaneous executions of one signal can both pass the "already executed" check before either marks it, because the route reads and then writes. The model runs requests one at a time, so it does not capture this race.
- Request bodies: JSON numbers, booleans and `null` in body properties are not modelled; properties are strings or absent. The same holds for the WebSocket `userId` and `symbol`.
- `orderResult.executedQty || 0` and the similar fallbacks store the number 0. The model stores the string "0", since the trade columns are strings here.
- WebSocket timestamps, `console` logging and the `close`/`error` listeners are not modelled. A client's `readyState` is a boolean `open`.
- The React components and the rest of src/utils/api.ts (HTTP client, formatting helpers) are outside the modelled core.
- SignalRoutes.Execute, TradingRoutes.CreateOrder, TradingRoutes.CancelOrder: every database write after a successful exchange call is assumed to succeed. In the source, a failing trade INSERT or signal UPDATE is caught and answered with 500 after the order already reached the exchange. The trade may then be unrecorded, or linked to a signal still marked unexecuted, and a retry places a second order. The model does not capture this. So `Store.AtMostOneExecution` and the consistency it rests on hold only when those writes succeed.
- SignalService.GenerateSignal: the `storeSignal` INSERT (server/services/ai.js:343-362) is assumed to succeed. In the source a failing INSERT is rethrown by `generateSignal` (server/services/ai.js:230-232), so the caller gets an error and no analysis. The model always returns the analysis and stores the directional row.
- WsHandlers.Client.SubscribeSignals, WsHandlers.BroadcastSignal: the signal filters are lists of strings. The source stores a `null` or non-array `symbols`/`signalTypes` as sent, because the destructuring default applies only when the property is absent. Reading `.length` of a `null` filter then throws inside `broadcastSignal`, and the clients after it miss the signal. A string filter gets substring `includes` semantics. Neither is modelled.
- WsHandlers.Client.HandleMessage: the message type is a string. A parsed message without a `type`, or with a non-string one, is answered "Unknown message type: undefined" (or the value's string form) in the source. The model cannot express that message.
- `/active` filters: SQL `=` on `symbol` and `signal_type` is case-insensitive under MySQL's default collation. The model compares strings exactly.
- Path parameters: `:id` and `:orderId` are strings in the source. The model takes them as a number and an integer, so a non-numeric id is not modelled.
