/** The rows the service reads and writes (the `signals`, `trades` and
    `api_keys` tables) held in memory, and the consistency the signal
    lifecycle keeps between them: no directional signal is executed twice.

    The tables are fields of a `Database` object that the route handlers
    update in place; the consistency conditions are predicates over the table
    values, so that the lemmas about them speak of values only. */
module Store {
  import opened Wrappers
  import opened JsValues
  import opened Indicators
  import opened Synthesis

  /** An error response: HTTP status and the `error` message. */
  datatype HttpError = HttpError(status: nat, message: string)

  /** A row of `signals`. */
  datatype SignalRow = SignalRow(
    id: nat,
    symbol: string,
    signalType: SignalType,
    strength: real,
    timeframe: string,
    entryPrice: real,
    stopLoss: Option<real>,
    takeProfit: Option<real>,
    riskReward: Num,
    confidence: real,
    modelVersion: string,
    indicators: IndicatorSet,
    votes: seq<Vote>,
    buyWeight: real,
    sellWeight: real,
    createdAt: int,
    expiresAt: int,
    isActive: bool,
    executed: bool)

  /** A row of `trades`. Columns an INSERT does not name hold their column
      default, taken here as `null` (`None`) and `false`. */
  datatype TradeRow = TradeRow(
    userId: int,
    orderId: int,
    symbol: string,
    side: string,
    orderType: string,
    quantity: string,
    price: Option<string>,
    stopPrice: Option<string>,
    executedQuantity: string,
    executedPrice: string,
    commission: Option<string>,
    commissionAsset: Option<string>,
    status: string,
    timeInForce: Option<string>,
    accountType: string,
    signalId: Option<nat>,
    isAutomated: bool,
    executedAt: Option<int>)

  /** A row of `api_keys`. */
  datatype ApiKey = ApiKey(userId: int, apiKey: string, secretKey: string, isTestnet: bool, isActive: bool)

  /** `is_active = TRUE AND expires_at > NOW()`. */
  predicate Live(row: SignalRow, now: int) {
    row.isActive && row.expiresAt > now
  }

  /** `SELECT * FROM api_keys WHERE user_id = ? AND is_active = TRUE LIMIT 1`,
      reading the table in storage order. */
  function FirstActiveKey(keys: seq<ApiKey>, userId: int): (r: Option<ApiKey>)
    ensures r.Some? ==> r.value in keys && r.value.userId == userId && r.value.isActive
    ensures r.None? <==> forall k | k in keys :: !(k.userId == userId && k.isActive)
  {
    if |keys| == 0 then None
    else if keys[0].userId == userId && keys[0].isActive then Some(keys[0])
    else FirstActiveKey(keys[1..], userId)
  }

  /** `UPDATE trades SET status = 'CANCELED' WHERE binance_order_id = ? AND
      user_id = ?`: exactly the matching rows change, and only their status. */
  function CancelMatching(trades: seq<TradeRow>, orderId: int, userId: int): (r: seq<TradeRow>)
    ensures |r| == |trades|
    ensures forall i | 0 <= i < |trades| && trades[i].orderId == orderId && trades[i].userId == userId ::
              r[i] == trades[i].(status := "CANCELED")
    ensures forall i | 0 <= i < |trades| && !(trades[i].orderId == orderId && trades[i].userId == userId) ::
              r[i] == trades[i]
  {
    if |trades| == 0 then []
    else
      var t := trades[0];
      var row := if t.orderId == orderId && t.userId == userId then t.(status := "CANCELED") else t;
      [row] + CancelMatching(trades[1..], orderId, userId)
  }

  // ---------------------------------------------------------------------
  // Consistency of the tables

  /** Rows are stored under their own id, ids come from the auto-increment
      counter, and only directional calls are stored. */
  predicate WellKeyed(signals: map<nat, SignalRow>, nextId: nat) {
    forall id | id in signals :: signals[id].id == id && id < nextId && signals[id].signalType != HOLD
  }

  /** A trade that links a signal links a stored, executed one. */
  predicate LinksExecuted(signals: map<nat, SignalRow>, trades: seq<TradeRow>) {
    forall i | 0 <= i < |trades| && trades[i].signalId.Some? ::
      trades[i].signalId.value in signals && signals[trades[i].signalId.value].executed
  }

  /** No two trades link the same signal. */
  predicate LinksDistinct(trades: seq<TradeRow>) {
    forall i, j | 0 <= i < j < |trades| && trades[i].signalId.Some? :: trades[j].signalId != trades[i].signalId
  }

  predicate Consistent(signals: map<nat, SignalRow>, trades: seq<TradeRow>, nextId: nat) {
    WellKeyed(signals, nextId) && LinksExecuted(signals, trades) && LinksDistinct(trades)
  }

  /** The number of trades that execute signal `id`. */
  function LinkedCount(trades: seq<TradeRow>, id: nat): nat {
    if |trades| == 0 then 0
    else LinkedCount(trades[..|trades| - 1], id) + (if trades[|trades| - 1].signalId == Some(id) then 1 else 0)
  }

  lemma {:induction false} NoLinkedTrade(trades: seq<TradeRow>, id: nat)
    ensures LinkedCount(trades, id) == 0 <==> forall i | 0 <= i < |trades| :: trades[i].signalId != Some(id)
  {
    if |trades| > 0 {
      var init := trades[..|trades| - 1];
      NoLinkedTrade(init, id);
      assert forall i | 0 <= i < |init| :: init[i] == trades[i];
    }
  }

  /** In consistent tables every signal has at most one trade executing it,
      and an unexecuted signal has none. */
  lemma {:induction false} AtMostOneExecution(signals: map<nat, SignalRow>, trades: seq<TradeRow>, nextId: nat, id: nat)
    requires Consistent(signals, trades, nextId)
    ensures LinkedCount(trades, id) <= 1
    ensures (id !in signals || !signals[id].executed) ==> LinkedCount(trades, id) == 0
  {
    if |trades| > 0 {
      var init := trades[..|trades| - 1];
      assert forall i | 0 <= i < |init| :: init[i] == trades[i];
      AtMostOneExecution(signals, init, nextId, id);
      if trades[|trades| - 1].signalId == Some(id) {
        NoLinkedTrade(init, id);
      }
    }
  }

  /** Storing a fresh directional signal under the next id keeps the tables
      consistent. */
  lemma InsertKeepsConsistent(signals: map<nat, SignalRow>, trades: seq<TradeRow>, nextId: nat, row: SignalRow)
    requires Consistent(signals, trades, nextId)
    requires row.id == nextId && row.signalType != HOLD && !row.executed
    ensures nextId !in signals
    ensures Consistent(signals[nextId := row], trades, nextId + 1)
  {
    var signals' := signals[nextId := row];
    forall i | 0 <= i < |trades| && trades[i].signalId.Some?
      ensures trades[i].signalId.value in signals' && signals'[trades[i].signalId.value].executed
    {
      assert trades[i].signalId.value in signals;
    }
  }

  /** Appending a trade that links no signal keeps the tables consistent. */
  lemma ManualTradeKeepsConsistent(signals: map<nat, SignalRow>, trades: seq<TradeRow>, nextId: nat, t: TradeRow)
    requires Consistent(signals, trades, nextId)
    requires t.signalId.None?
    ensures Consistent(signals, trades + [t], nextId)
  {
  }

  /** Appending the trade of an unexecuted signal and then marking that
      signal executed keeps the tables consistent. */
  lemma ExecutionKeepsConsistent(signals: map<nat, SignalRow>, trades: seq<TradeRow>, nextId: nat, id: nat, t: TradeRow)
    requires Consistent(signals, trades, nextId)
    requires id in signals && !signals[id].executed && t.signalId == Some(id)
    ensures Consistent(signals[id := signals[id].(executed := true)], trades + [t], nextId)
  {
    var signals' := signals[id := signals[id].(executed := true)];
    var trades' := trades + [t];
    forall i, j | 0 <= i < j < |trades'| && trades'[i].signalId.Some?
      ensures trades'[j].signalId != trades'[i].signalId
    {
      if j == |trades| {
        assert trades[i].signalId.value in signals && signals[trades[i].signalId.value].executed;
      }
    }
  }

  /** Cancelling orders changes statuses only, so it keeps the tables
      consistent. */
  lemma CancelKeepsConsistent(signals: map<nat, SignalRow>, trades: seq<TradeRow>, nextId: nat, orderId: int, userId: int)
    requires Consistent(signals, trades, nextId)
    ensures Consistent(signals, CancelMatching(trades, orderId, userId), nextId)
  {
    var r := CancelMatching(trades, orderId, userId);
    assert forall i | 0 <= i < |r| :: r[i].signalId == trades[i].signalId;
  }

  // ---------------------------------------------------------------------
  // The database object

  class Database {
    var signals: map<nat, SignalRow>
    var trades: seq<TradeRow>
    var apiKeys: seq<ApiKey>
    /** The `AUTO_INCREMENT` counter of `signals`. */
    var nextSignalId: nat

    predicate Valid()
      reads this
    {
      Consistent(signals, trades, nextSignalId)
    }

    constructor(apiKeys: seq<ApiKey>)
      ensures Valid()
      ensures signals == map[] && trades == [] && this.apiKeys == apiKeys && nextSignalId == 1
    {
      signals := map[];
      trades := [];
      this.apiKeys := apiKeys;
      nextSignalId := 1;
    }

    /** `SELECT * FROM signals WHERE id = ? AND is_active = TRUE AND
        expires_at > NOW()`. */
    function FindLive(id: nat, now: int): (r: Option<SignalRow>)
      reads this
      ensures r.Some? <==> id in signals && Live(signals[id], now)
      ensures r.Some? ==> r.value == signals[id]
    {
      if id in signals && Live(signals[id], now) then Some(signals[id]) else None
    }

    /** The user's first active API key, if any. */
    function ActiveKey(userId: int): (r: Option<ApiKey>)
      reads this
      ensures r.Some? ==> r.value in apiKeys && r.value.userId == userId && r.value.isActive
      ensures r.None? <==> forall k | k in apiKeys :: !(k.userId == userId && k.isActive)
    {
      FirstActiveKey(apiKeys, userId)
    }

    /** `INSERT INTO signals`: the row is stored under the next id. */
    method InsertSignal(row: SignalRow) returns (id: nat)
      requires Valid()
      requires row.signalType != HOLD && !row.executed
      modifies this
      ensures Valid()
      ensures id == old(nextSignalId) && id !in old(signals)
      ensures signals == old(signals)[id := row.(id := id)]
      ensures nextSignalId == old(nextSignalId) + 1
      ensures trades == old(trades) && apiKeys == old(apiKeys)
    {
      id := nextSignalId;
      InsertKeepsConsistent(signals, trades, nextSignalId, row.(id := id));
      signals := signals[id := row.(id := id)];
      nextSignalId := nextSignalId + 1;
    }

    /** `INSERT INTO trades`. */
    method InsertTrade(t: TradeRow)
      modifies this
      ensures trades == old(trades) + [t]
      ensures signals == old(signals) && apiKeys == old(apiKeys) && nextSignalId == old(nextSignalId)
    {
      trades := trades + [t];
    }

    /** `UPDATE signals SET executed = TRUE WHERE id = ?`. */
    method MarkExecuted(id: nat)
      modifies this
      ensures id in old(signals) ==> signals == old(signals)[id := old(signals)[id].(executed := true)]
      ensures id !in old(signals) ==> signals == old(signals)
      ensures trades == old(trades) && apiKeys == old(apiKeys) && nextSignalId == old(nextSignalId)
    {
      if id in signals {
        signals := signals[id := signals[id].(executed := true)];
      }
    }

    /** `UPDATE trades SET status = 'CANCELED' WHERE binance_order_id = ? AND
        user_id = ?`. */
    method CancelTrades(orderId: int, userId: int)
      requires Valid()
      modifies this
      ensures Valid()
      ensures trades == CancelMatching(old(trades), orderId, userId)
      ensures signals == old(signals) && apiKeys == old(apiKeys) && nextSignalId == old(nextSignalId)
    {
      CancelKeepsConsistent(signals, trades, nextSignalId, orderId, userId);
      trades := CancelMatching(trades, orderId, userId);
    }
  }
}
