/** The signal routes: listing the active signals (`GET /active`) and
    executing one (`POST /:id/execute`).

    Executing is a short state machine over the tables and the exchange:
    look the signal up among the live ones, refuse it when already executed,
    require an active API key, place a MARKET order, record the trade linked
    to the signal, and mark the signal executed. Every refusal happens before
    the exchange is contacted, and a failed order leaves the tables as they
    were; together with the consistency of the tables this makes a signal
    executable at most once (for calls that do not overlap). */
module SignalRoutes {
  import opened Wrappers
  import opened JsValues
  import opened Synthesis
  import opened Store
  import opened Exchange

  // ---------------------------------------------------------------------
  // GET /active (server/routes/signals.js:29-63)

  /** The WHERE clause: live, and matching the symbol and signal type when
      those query parameters are given. */
  predicate Listed(row: SignalRow, symbol: Option<string>, signalType: Option<string>, now: int) {
    && Live(row, now)
    && (Present(symbol) ==> row.symbol == symbol.value)
    && (Present(signalType) ==> TypeName(row.signalType) == signalType.value)
  }

  /** `ORDER BY confidence_score DESC, created_at DESC`: `a` may be listed
      before `b`. */
  predicate RanksBefore(a: SignalRow, b: SignalRow) {
    a.confidence > b.confidence || (a.confidence == b.confidence && a.createdAt >= b.createdAt)
  }

  predicate Ranked(rows: seq<SignalRow>) {
    forall i, j | 0 <= i < j < |rows| :: RanksBefore(rows[i], rows[j])
  }

  /** The ids of the rows the WHERE clause selects. */
  function ListedIds(signals: map<nat, SignalRow>, symbol: Option<string>, signalType: Option<string>, now: int): set<nat> {
    set id: nat | id in signals && Listed(signals[id], symbol, signalType, now)
  }

  /** `limit = 20` when the query does not give one. */
  const DefaultLimit: nat := 20

  /** Every non-empty set of rows has a row that ranks before all of them. */
  lemma {:induction false} TopExists(signals: map<nat, SignalRow>, ids: set<nat>)
    requires ids != {} && ids <= signals.Keys
    ensures exists top | top in ids :: forall id | id in ids :: RanksBefore(signals[top], signals[id])
    decreases |ids|
  {
    var x :| x in ids;
    var rest := ids - {x};
    if rest == {} {
      assert ids == {x};
      assert forall id | id in ids :: RanksBefore(signals[x], signals[id]);
    } else {
      TopExists(signals, rest);
      var top :| top in rest && forall id | id in rest :: RanksBefore(signals[top], signals[id]);
      if RanksBefore(signals[top], signals[x]) {
        assert forall id | id in ids :: RanksBefore(signals[top], signals[id]);
      } else {
        assert forall id | id in ids :: RanksBefore(signals[x], signals[id]);
      }
    }
  }

  lemma RankedAppend(rows: seq<SignalRow>, row: SignalRow)
    requires Ranked(rows)
    requires forall i | 0 <= i < |rows| :: RanksBefore(rows[i], row)
    ensures Ranked(rows + [row])
  {
  }

  /** The state of the selection: `rows` holds, in rank order, one row for
      each id taken so far, and every row still remaining ranks after all of
      them. */
  ghost predicate Selected(signals: map<nat, SignalRow>, ids: set<nat>, rows: seq<SignalRow>, remaining: set<nat>, taken: set<nat>) {
    && (forall id | id in ids :: id in signals && signals[id].id == id)
    && remaining <= ids && taken == ids - remaining
    && |rows| == |taken|
    && (forall i | 0 <= i < |rows| :: rows[i].id in taken && signals[rows[i].id] == rows[i])
    && (forall id | id in taken :: signals[id] in rows)
    && (forall i, j | 0 <= i < j < |rows| :: rows[i].id != rows[j].id)
    && Ranked(rows)
    && (forall i, id | 0 <= i < |rows| && id in remaining :: RanksBefore(rows[i], signals[id]))
  }

  /** Taking a top-ranked remaining row keeps the selection state. */
  lemma SelectStep(signals: map<nat, SignalRow>, ids: set<nat>, rows: seq<SignalRow>, remaining: set<nat>, taken: set<nat>, top: nat)
    requires Selected(signals, ids, rows, remaining, taken)
    requires top in remaining && forall id | id in remaining :: RanksBefore(signals[top], signals[id])
    ensures Selected(signals, ids, rows + [signals[top]], remaining - {top}, taken + {top})
  {
    var row := signals[top];
    var rows', remaining', taken' := rows + [row], remaining - {top}, taken + {top};
    assert top !in taken;
    assert |rows'| == |taken'|;
    forall i | 0 <= i < |rows'|
      ensures rows'[i].id in taken' && signals[rows'[i].id] == rows'[i]
      ensures rows'[i].id != top ==> i < |rows|
    {
      if i < |rows| {
        assert rows'[i] == rows[i];
      }
    }
    forall id | id in taken'
      ensures signals[id] in rows'
    {
      if id != top {
        assert signals[id] in rows;
      } else {
        assert rows'[|rows|] == row;
      }
    }
    forall i, j | 0 <= i < j < |rows'|
      ensures rows'[i].id != rows'[j].id
    {
      assert rows'[i] == rows[i];
      if j < |rows| {
        assert rows'[j] == rows[j];
      }
    }
    RankedAppend(rows, row);
    forall i, id | 0 <= i < |rows'| && id in remaining'
      ensures RanksBefore(rows'[i], signals[id])
    {
      if i < |rows| {
        assert rows'[i] == rows[i];
      }
    }
  }

  /** `ORDER BY ... LIMIT lim` over the rows with the given ids: the first
      `lim` rows in rank order, by repeatedly taking a top-ranked row. */
  method TopRows(signals: map<nat, SignalRow>, ids: set<nat>, lim: nat) returns (rows: seq<SignalRow>)
    requires forall id | id in ids :: id in signals && signals[id].id == id
    ensures forall i | 0 <= i < |rows| :: rows[i].id in ids && signals[rows[i].id] == rows[i]
    ensures forall i, j | 0 <= i < j < |rows| :: rows[i].id != rows[j].id
    ensures Ranked(rows)
    ensures |rows| == if lim < |ids| then lim else |ids|
    ensures forall id | id in ids && signals[id] !in rows ::
              |rows| == lim && forall i | 0 <= i < |rows| :: RanksBefore(rows[i], signals[id])
  {
    var remaining := ids;
    rows := [];
    ghost var taken: set<nat> := {};
    while |rows| < lim && remaining != {}
      invariant Selected(signals, ids, rows, remaining, taken)
      invariant |rows| <= lim
      decreases remaining
    {
      TopExists(signals, remaining);
      var top :| top in remaining && forall id | id in remaining :: RanksBefore(signals[top], signals[id]);
      SelectStep(signals, ids, rows, remaining, taken, top);
      rows := rows + [signals[top]];
      remaining := remaining - {top};
      taken := taken + {top};
    }
    SelectFinish(signals, ids, rows, remaining, taken, lim);
  }

  /** When the limit is reached or nothing remains, the selection is the
      answer to the query. */
  lemma SelectFinish(signals: map<nat, SignalRow>, ids: set<nat>, rows: seq<SignalRow>, remaining: set<nat>, taken: set<nat>, lim: nat)
    requires Selected(signals, ids, rows, remaining, taken)
    requires |rows| <= lim && (|rows| == lim || remaining == {})
    ensures forall i | 0 <= i < |rows| :: rows[i].id in ids && signals[rows[i].id] == rows[i]
    ensures |rows| == if lim < |ids| then lim else |ids|
    ensures forall id | id in ids && signals[id] !in rows ::
              |rows| == lim && forall i | 0 <= i < |rows| :: RanksBefore(rows[i], signals[id])
  {
    assert ids == taken + remaining && taken !! remaining;
  }

  /** The listing: every row listed is a live, matching row of the table,
      no row is listed twice, the rows are in rank order, the listing is as
      long as the limit allows, and a matching row left out means the limit
      was reached by rows that all rank before it. */
  method ListActive(db: Database, symbol: Option<string>, signalType: Option<string>, limit: Option<nat>, now: int)
    returns (rows: seq<SignalRow>)
    requires db.Valid()
    ensures forall i | 0 <= i < |rows| :: rows[i].id in db.signals && db.signals[rows[i].id] == rows[i]
    ensures forall i | 0 <= i < |rows| :: Listed(rows[i], symbol, signalType, now)
    ensures forall i, j | 0 <= i < j < |rows| :: rows[i].id != rows[j].id
    ensures Ranked(rows)
    ensures var lim := limit.GetOr(DefaultLimit);
            var n := |ListedIds(db.signals, symbol, signalType, now)|;
            |rows| == if lim < n then lim else n
    ensures forall id | id in ListedIds(db.signals, symbol, signalType, now) && db.signals[id] !in rows ::
              |rows| == limit.GetOr(DefaultLimit) && forall i | 0 <= i < |rows| :: RanksBefore(rows[i], db.signals[id])
  {
    var matching := set id: nat | id in db.signals && Listed(db.signals[id], symbol, signalType, now);
    assert matching == ListedIds(db.signals, symbol, signalType, now);
    rows := TopRows(db.signals, matching, limit.GetOr(DefaultLimit));
  }

  // ---------------------------------------------------------------------
  // POST /:id/execute (server/routes/signals.js:160-243)

  /** The quantity ordered: the one in the request body when truthy,
      otherwise 0.001. */
  function OrderQuantity(quantity: Option<string>): (q: string)
    ensures Present(quantity) ==> q == quantity.value
    ensures !Present(quantity) ==> q == "0.001"
  {
    StringOr(quantity, "0.001")
  }

  /** The market order placed for a signal. */
  function MarketOrder(signal: SignalRow, quantity: Option<string>): (spec: OrderSpec)
    ensures spec.side == TypeName(signal.signalType) && spec.orderType == "MARKET"
    ensures spec.symbol == signal.symbol && spec.quantity == OrderQuantity(quantity)
    ensures spec.timeInForce.None? && spec.price.None? && spec.stopPrice.None?
  {
    OrderSpec(signal.symbol, TypeName(signal.signalType), "MARKET", OrderQuantity(quantity), None, None, None)
  }

  /** The trade recorded for an executed signal. */
  function ExecutionTrade(userId: int, signal: SignalRow, quantity: Option<string>, order: OrderResult, now: int): (t: TradeRow)
    ensures t.signalId == Some(signal.id) && !t.isAutomated && t.accountType == "futures"
    ensures t.userId == userId && t.orderId == order.orderId && t.status == order.status
    ensures t.side == TypeName(signal.signalType) && t.orderType == "MARKET" && t.quantity == OrderQuantity(quantity)
    ensures t.executedQuantity == StringOr(order.executedQty, "0")
    ensures t.executedPrice == StringOr(order.avgPrice, "0")
    ensures t.executedAt.Some? <==> order.status == "FILLED"
    ensures t.executedAt.Some? ==> t.executedAt.value == now
  {
    TradeRow(userId, order.orderId, signal.symbol, TypeName(signal.signalType), "MARKET",
             OrderQuantity(quantity), None, None,
             StringOr(order.executedQty, "0"), StringOr(order.avgPrice, "0"),
             None, None, order.status, None, "futures", Some(signal.id), false,
             if order.status == "FILLED" then Some(now) else None)
  }

  datatype Executed = Executed(order: OrderResult, signal: SignalRow)

  method Execute(db: Database, gateway: Gateway, userId: int, id: nat, quantity: Option<string>, now: int)
    returns (r: Result<Executed, HttpError>)
    requires db.Valid()
    modifies db, gateway
    ensures db.Valid()
    ensures db.apiKeys == old(db.apiKeys) && db.nextSignalId == old(db.nextSignalId)
    // the guards, in order, each before any exchange call
    ensures old(db.FindLive(id, now)).None? ==>
              r == Failure(HttpError(404, "Signal not found or expired"))
    ensures old(db.FindLive(id, now)).Some? && old(db.signals[id].executed) ==>
              r == Failure(HttpError(400, "Signal already executed"))
    ensures old(db.FindLive(id, now)).Some? && !old(db.signals[id].executed) && old(db.ActiveKey(userId)).None? ==>
              r == Failure(HttpError(400, "No active API keys found"))
    ensures r.Failure? && r.error.status != 500 ==>
              gateway.requests == old(gateway.requests)
    // the order placed once the guards pass
    ensures old(db.FindLive(id, now)).Some? && !old(db.signals[id].executed) && old(db.ActiveKey(userId)).Some? ==>
              var key := old(db.ActiveKey(userId)).value;
              var creds := Credentials(key.apiKey, key.secretKey, key.isTestnet);
              gateway.requests == old(gateway.requests) + [PlaceOrderRequest(creds, MarketOrder(old(db.signals[id]), quantity))]
              && (r.Failure? ==> r.error.status == 500)
    // the response follows the exchange's reply to that order
    ensures old(db.FindLive(id, now)).Some? && !old(db.signals[id].executed) && old(db.ActiveKey(userId)).Some? ==>
              var key := old(db.ActiveKey(userId)).value;
              var creds := Credentials(key.apiKey, key.secretKey, key.isTestnet);
              match gateway.placeReply(|old(gateway.requests)|, creds, MarketOrder(old(db.signals[id]), quantity))
              case Success(o) => r == Success(Executed(o, old(db.signals[id])))
              case Failure(m) => r == Failure(HttpError(500, m))
    // nothing is written unless the order succeeded
    ensures r.Failure? ==> db.signals == old(db.signals) && db.trades == old(db.trades)
    ensures r.Success? ==>
              && id in old(db.signals) && Live(old(db.signals[id]), now) && !old(db.signals[id].executed)
              && r.value.signal == old(db.signals[id])
              && db.trades == old(db.trades) + [ExecutionTrade(userId, old(db.signals[id]), quantity, r.value.order, now)]
              && db.signals == old(db.signals)[id := old(db.signals[id]).(executed := true)]
  {
    var found := db.FindLive(id, now);
    if found.None? {
      return Failure(HttpError(404, "Signal not found or expired"));
    }
    var signal := found.value;
    if signal.executed {
      return Failure(HttpError(400, "Signal already executed"));
    }
    var key := db.ActiveKey(userId);
    if key.None? {
      return Failure(HttpError(400, "No active API keys found"));
    }
    var creds := Credentials(key.value.apiKey, key.value.secretKey, key.value.isTestnet);
    var orderData := MarketOrder(signal, quantity);
    var orderResult := gateway.CreateOrder(creds, orderData);
    if orderResult.Failure? {
      return Failure(HttpError(500, orderResult.error));
    }
    var trade := ExecutionTrade(userId, signal, quantity, orderResult.value, now);
    ExecutionKeepsConsistent(db.signals, db.trades, db.nextSignalId, id, trade);
    db.InsertTrade(trade);
    db.MarkExecuted(signal.id);
    r := Success(Executed(orderResult.value, signal));
  }

  /** Two executions of the same signal in a row, at any two times: after
      a successful first one the second is refused without sending anything
      to the exchange (as already executed while the signal is live, as not
      found once it has expired), and the signal is linked to exactly one
      trade. */
  method ExecuteTwice(db: Database, gateway: Gateway, userId: int, id: nat, quantity: Option<string>, now: int, now2: int)
    returns (first: Result<Executed, HttpError>, second: Result<Executed, HttpError>)
    requires db.Valid()
    modifies db, gateway
    ensures db.Valid()
    ensures first.Success? ==> second.Failure? && second.error.status != 500
    ensures first.Success? && now2 < first.value.signal.expiresAt ==>
              second == Failure(HttpError(400, "Signal already executed"))
    ensures first.Success? && now2 >= first.value.signal.expiresAt ==>
              second == Failure(HttpError(404, "Signal not found or expired"))
    ensures first.Success? ==> |gateway.requests| == |old(gateway.requests)| + 1
    ensures first.Success? ==> LinkedCount(db.trades, id) == 1
    ensures LinkedCount(db.trades, id) <= 1
  {
    first := Execute(db, gateway, userId, id, quantity, now);
    if first.Success? {
      NoLinkedTrade(db.trades, id);
    }
    second := Execute(db, gateway, userId, id, quantity, now2);
    AtMostOneExecution(db.signals, db.trades, db.nextSignalId, id);
    if first.Success? {
      assert id in db.signals && db.signals[id].executed;
    }
  }

}
