/** Signal generation (`generateSignal`) and storage (`storeSignal`) of the
    AI service: compute the indicators, run the weighted vote with the best
    active model, and store the call when it is directional, to expire four
    hours later. */
module SignalService {
  import opened Wrappers
  import opened JsValues
  import opened Indicators
  import opened Synthesis
  import opened Store

  /** An active AI model; the list given to `GenerateSignal` is ordered by
      accuracy, best first. */
  datatype ModelInfo = ModelInfo(name: string, version: string)

  /** Four hours, in milliseconds. */
  const FourHours: int := 4 * 60 * 60 * 1000

  /** The row `storeSignal` inserts for an analysis at time `now` (the id is
      assigned by the table). */
  function StoredSignal(symbol: string, timeframe: string, a: Analysis, modelVersion: string, now: int): (row: SignalRow)
    ensures row.expiresAt == now + FourHours
  {
    SignalRow(0, symbol, a.signalType, a.strength, timeframe, a.entryPrice, a.stopLoss, a.takeProfit,
              a.riskReward, a.confidence, modelVersion, a.indicators, a.votes, a.buyWeight, a.sellWeight,
              now, now + FourHours, true, false)
  }

  /** A freshly stored signal is listed as active exactly during the four
      hours after its creation, and is not yet executed. */
  lemma StoredSignalLiveWindow(symbol: string, timeframe: string, a: Analysis, modelVersion: string, now: int, t: int)
    ensures var row := StoredSignal(symbol, timeframe, a, modelVersion, now);
            && !row.executed
            && (Live(row, t) <==> t < now + 14_400_000)
            && row.expiresAt - row.createdAt == 14_400_000
  {
  }

  method GenerateSignal(
    db: Database, models: seq<ModelInfo>, symbol: string, timeframe: string,
    klines: seq<Candle>, now: int, sqrt: real -> real)
    returns (r: Result<Analysis, string>)
    requires db.Valid()
    modifies db
    ensures db.Valid()
    ensures db.trades == old(db.trades) && db.apiKeys == old(db.apiKeys)
    ensures |models| == 0 ==> r == Failure("No active AI models available")
    ensures |models| > 0 ==> r == Success(Analyze(TechnicalIndicators(klines, sqrt)))
    ensures r.Failure? || r.value.signalType == HOLD ==>
              db.signals == old(db.signals) && db.nextSignalId == old(db.nextSignalId)
    ensures r.Success? && r.value.signalType != HOLD ==>
              var id := old(db.nextSignalId);
              && id !in old(db.signals)
              && db.signals == old(db.signals)[id := StoredSignal(symbol, timeframe, r.value, models[0].version, now).(id := id)]
              && db.nextSignalId == id + 1
  {
    var indicators := CalculateTechnicalIndicators(klines, sqrt);
    if |models| == 0 {
      return Failure("No active AI models available");
    }
    var bestModel := models[0];
    var signal := AnalyzeMarketConditions(indicators);
    if signal.signalType != HOLD {
      var _ := db.InsertSignal(StoredSignal(symbol, timeframe, signal, bestModel.version, now));
    }
    r := Success(signal);
  }
}
