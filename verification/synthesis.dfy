/** The rule-based signal synthesiser of the AI service: a fixed weighted
    vote over the indicator record decides BUY, SELL or HOLD, a confidence,
    a strength and the stop-loss / take-profit levels.

    `Analyze` states the whole outcome as a function of the indicator record;
    `AnalyzeMarketConditions` performs it the way the service does (pushing
    votes into a list and accumulating the strength as it goes) and is proved
    to return the same analysis. */
module Synthesis {
  import opened Wrappers
  import opened JsValues
  import opened Indicators

  datatype Side = Buy | Sell

  datatype SignalType = BUY | SELL | HOLD

  /** The wire name of a signal type, as stored and as used for order sides. */
  function TypeName(t: SignalType): (s: string)
    ensures |s| > 0
  {
    match t
    case BUY => "BUY"
    case SELL => "SELL"
    case HOLD => "HOLD"
  }

  /** One entry of `market_conditions.signals`. */
  datatype Vote = Vote(side: Side, weight: real, reason: string)

  /** `Math.min(x, bound)`. */
  function Cap(x: real, bound: real): (r: real)
    ensures r <= bound && r <= x && (r == x || r == bound)
  {
    if x < bound then x else bound
  }

  // ---------------------------------------------------------------------
  // The four rules (server/services/ai.js:241-292)

  /** RSI below 30 votes BUY, above 70 votes SELL; a `null` RSI is skipped,
      but an absent one passes the guard and then compares false both ways. */
  function RsiRule(ind: IndicatorSet): Option<Vote> {
    if NotNull(ind.rsi) then
      if Less(ind.rsi, Finite(30.0)) then Some(Vote(Buy, 0.3, "RSI oversold"))
      else if Greater(ind.rsi, Finite(70.0)) then Some(Vote(Sell, 0.3, "RSI overbought"))
      else None
    else None
  }

  /** MACD above its signal votes BUY, anything else (including an absent
      pair, whose comparison is false) votes SELL. */
  function MacdRule(ind: IndicatorSet): Option<Vote> {
    if NotNull(ind.macd) && NotNull(ind.macdSignal) then
      if Greater(ind.macd, ind.macdSignal) then Some(Vote(Buy, 0.25, "MACD bullish crossover"))
      else Some(Vote(Sell, 0.25, "MACD bearish crossover"))
    else None
  }

  /** SMA 20 above SMA 50 votes BUY, anything else votes SELL. */
  function SmaRule(ind: IndicatorSet): Option<Vote> {
    if NotNull(ind.sma20) && NotNull(ind.sma50) then
      if Greater(ind.sma20, ind.sma50) then Some(Vote(Buy, 0.2, "SMA 20 > SMA 50"))
      else Some(Vote(Sell, 0.2, "SMA 20 < SMA 50"))
    else None
  }

  /** The SMA 20 stands in for the current price: below the lower band votes
      BUY, above the upper band votes SELL, and a falsy price votes nothing. */
  function BollingerRule(ind: IndicatorSet): Option<Vote> {
    if NotNull(ind.bollingerUpper) && NotNull(ind.bollingerLower) then
      var price := ind.sma20;
      if Truthy(price) && Less(price, ind.bollingerLower) then
        Some(Vote(Buy, 0.15, "Price below Bollinger lower band"))
      else if Truthy(price) && Greater(price, ind.bollingerUpper) then
        Some(Vote(Sell, 0.15, "Price above Bollinger upper band"))
      else None
    else None
  }

  function Ballot(o: Option<Vote>): (s: seq<Vote>)
    ensures |s| <= 1
  {
    match o
    case Some(v) => [v]
    case None => []
  }

  /** The votes in the order the rules push them. */
  function Votes(ind: IndicatorSet): (votes: seq<Vote>)
    ensures |votes| <= 4
  {
    Ballot(RsiRule(ind)) + Ballot(MacdRule(ind)) + Ballot(SmaRule(ind)) + Ballot(BollingerRule(ind))
  }

  /** `filter(s => s.type === side).reduce((sum, s) => sum + s.weight, 0)`. */
  function Weight(votes: seq<Vote>, side: Side): real {
    if |votes| == 0 then 0.0
    else
      var last := votes[|votes| - 1];
      Weight(votes[..|votes| - 1], side) + (if last.side == side then last.weight else 0.0)
  }

  /** The sum of every weight pushed, in push order. */
  function TotalWeight(votes: seq<Vote>): real {
    if |votes| == 0 then 0.0 else TotalWeight(votes[..|votes| - 1]) + votes[|votes| - 1].weight
  }

  // ---------------------------------------------------------------------
  // Decision and risk levels (server/services/ai.js:294-328)

  function Decide(buyWeight: real, sellWeight: real): SignalType {
    if buyWeight > sellWeight && buyWeight > 0.4 then BUY
    else if sellWeight > buyWeight && sellWeight > 0.4 then SELL
    else HOLD
  }

  function Confidence(t: SignalType, buyWeight: real, sellWeight: real): real {
    match t
    case BUY => Cap(buyWeight * 100.0, 95.0)
    case SELL => Cap(sellWeight * 100.0, 95.0)
    case HOLD => 30.0
  }

  function StopLoss(t: SignalType, entry: real, atr: real): Option<real> {
    match t
    case BUY => Some(entry - atr * 2.0)
    case SELL => Some(entry + atr * 2.0)
    case HOLD => None
  }

  function TakeProfit(t: SignalType, entry: real, atr: real): Option<real> {
    match t
    case BUY => Some(entry + atr * 3.0)
    case SELL => Some(entry - atr * 3.0)
    case HOLD => None
  }

  /** `stopLoss && takeProfit ? |take - entry| / |entry - stop| : null`.
      Both levels must be truthy numbers; a zero distance to the stop would
      make the IEEE quotient NaN or infinite, which `RiskRewardOfAnalysis`
      shows never happens. */
  function RiskReward(entry: real, stop: Option<real>, take: Option<real>): Num {
    if Truthy(FromOption(stop)) && Truthy(FromOption(take)) then
      var risk := Abs(entry - stop.value);
      if risk != 0.0 then Finite(Abs(take.value - entry) / risk) else NaN
    else Null
  }

  datatype Analysis = Analysis(
    signalType: SignalType,
    strength: real,
    entryPrice: real,
    stopLoss: Option<real>,
    takeProfit: Option<real>,
    riskReward: Num,
    confidence: real,
    indicators: IndicatorSet,
    votes: seq<Vote>,
    buyWeight: real,
    sellWeight: real)

  /** The analysis `analyzeMarketConditions` returns for an indicator record.
      The entry is the SMA 20 when truthy and 0 otherwise; the ATR falls back
      to 2% of the entry when it is not truthy. */
  function Analyze(ind: IndicatorSet): Analysis {
    var votes := Votes(ind);
    var buyWeight, sellWeight := Weight(votes, Buy), Weight(votes, Sell);
    var t := Decide(buyWeight, sellWeight);
    var entry := OrElse(ind.sma20, 0.0);
    var atr := OrElse(ind.atr, entry * 0.02);
    var stop, take := StopLoss(t, entry, atr), TakeProfit(t, entry, atr);
    Analysis(t, Cap(TotalWeight(votes), 1.0), entry, stop, take, RiskReward(entry, stop, take),
             Confidence(t, buyWeight, sellWeight), ind, votes, buyWeight, sellWeight)
  }

  // ---------------------------------------------------------------------
  // Properties

  lemma {:induction false} WeightsPartitionTotal(votes: seq<Vote>)
    ensures TotalWeight(votes) == Weight(votes, Buy) + Weight(votes, Sell)
  {
    if |votes| > 0 {
      WeightsPartitionTotal(votes[..|votes| - 1]);
    }
  }

  lemma {:induction false} WeightOfAppend(s: seq<Vote>, t: seq<Vote>, side: Side)
    ensures Weight(s + t, side) == Weight(s, side) + Weight(t, side)
    decreases |t|
  {
    if |t| > 0 {
      assert (s + t)[..|s + t| - 1] == s + t[..|t| - 1];
      WeightOfAppend(s, t[..|t| - 1], side);
    } else {
      assert s + t == s;
    }
  }

  lemma TotalWeightOfPush(votes: seq<Vote>, v: Vote)
    ensures TotalWeight(votes + [v]) == TotalWeight(votes) + v.weight
  {
    assert (votes + [v])[..|votes|] == votes;
  }

  function BallotWeight(o: Option<Vote>, side: Side): real {
    if o.Some? && o.value.side == side then o.value.weight else 0.0
  }

  lemma WeightOfBallot(o: Option<Vote>, side: Side)
    ensures Weight(Ballot(o), side) == BallotWeight(o, side)
  {
    if o.Some? {
      assert Ballot(o)[..0] == [];
    }
  }

  lemma WeightOfBallots(a: Option<Vote>, b: Option<Vote>, c: Option<Vote>, d: Option<Vote>, side: Side)
    ensures Weight(Ballot(a) + Ballot(b) + Ballot(c) + Ballot(d), side) ==
              BallotWeight(a, side) + BallotWeight(b, side) + BallotWeight(c, side) + BallotWeight(d, side)
  {
    WeightOfAppend(Ballot(a), Ballot(b), side);
    WeightOfAppend(Ballot(a) + Ballot(b), Ballot(c), side);
    WeightOfAppend(Ballot(a) + Ballot(b) + Ballot(c), Ballot(d), side);
    WeightOfBallot(a, side);
    WeightOfBallot(b, side);
    WeightOfBallot(c, side);
    WeightOfBallot(d, side);
  }

  lemma WeightOfVotes(ind: IndicatorSet, side: Side)
    ensures Weight(Votes(ind), side) ==
              BallotWeight(RsiRule(ind), side) + BallotWeight(MacdRule(ind), side)
              + BallotWeight(SmaRule(ind), side) + BallotWeight(BollingerRule(ind), side)
  {
    WeightOfBallots(RsiRule(ind), MacdRule(ind), SmaRule(ind), BollingerRule(ind), side);
  }

  /** What each rule can contribute to the two sides. */
  lemma RuleWeights(ind: IndicatorSet)
    ensures 0.0 <= BallotWeight(RsiRule(ind), Buy) && 0.0 <= BallotWeight(RsiRule(ind), Sell)
    ensures BallotWeight(RsiRule(ind), Buy) + BallotWeight(RsiRule(ind), Sell) <= 0.3
    ensures 0.0 <= BallotWeight(MacdRule(ind), Buy) && 0.0 <= BallotWeight(MacdRule(ind), Sell)
    ensures BallotWeight(MacdRule(ind), Buy) + BallotWeight(MacdRule(ind), Sell) <= 0.25
    ensures 0.0 <= BallotWeight(SmaRule(ind), Buy) && 0.0 <= BallotWeight(SmaRule(ind), Sell)
    ensures BallotWeight(SmaRule(ind), Buy) + BallotWeight(SmaRule(ind), Sell) <= 0.2
    ensures 0.0 <= BallotWeight(BollingerRule(ind), Buy) && 0.0 <= BallotWeight(BollingerRule(ind), Sell)
    ensures BallotWeight(BollingerRule(ind), Buy) + BallotWeight(BollingerRule(ind), Sell) <= 0.15
  {
  }

  /** Each rule fires at most once, so the buy and sell weights add up to the
      uncapped strength, which never exceeds 0.3 + 0.25 + 0.2 + 0.15 = 0.9:
      the 1.0 cap on the reported strength never binds. */
  lemma StrengthIsSumOfWeights(ind: IndicatorSet)
    ensures var a := Analyze(ind);
            && a.strength == a.buyWeight + a.sellWeight
            && 0.0 <= a.buyWeight && 0.0 <= a.sellWeight
            && a.buyWeight + a.sellWeight <= 0.9
  {
    WeightsPartitionTotal(Votes(ind));
    WeightOfVotes(ind, Buy);
    WeightOfVotes(ind, Sell);
    RuleWeights(ind);
  }

  /** A directional call needs a strict majority above 0.4; confidence then
      exceeds 40 and, since no side can collect more than 0.9, the 95 cap
      never binds. HOLD has confidence exactly 30. So confidence exceeds 40
      exactly when the call is directional. */
  lemma DecisionAndConfidence(ind: IndicatorSet)
    ensures var a := Analyze(ind);
            && (a.signalType == BUY <==> a.buyWeight > a.sellWeight && a.buyWeight > 0.4)
            && (a.signalType == SELL <==> a.sellWeight > a.buyWeight && a.sellWeight > 0.4)
            && (a.signalType == BUY ==> a.confidence == a.buyWeight * 100.0)
            && (a.signalType == SELL ==> a.confidence == a.sellWeight * 100.0)
            && (a.signalType == HOLD ==> a.confidence == 30.0)
            && (a.signalType != HOLD <==> a.confidence > 40.0)
            && a.confidence <= 90.0
  {
    StrengthIsSumOfWeights(ind);
  }

  /** The levels sit two ATRs from the entry on the losing side and three on
      the winning side, so the target is always 1.5 times as far from the
      entry as the stop; HOLD carries no levels. */
  lemma RiskLevels(ind: IndicatorSet)
    ensures var a := Analyze(ind);
            && (a.signalType == HOLD <==> a.stopLoss.None?)
            && (a.stopLoss.None? <==> a.takeProfit.None?)
            && (a.signalType == HOLD ==> a.riskReward == Null)
            && (a.signalType == BUY ==>
                  a.takeProfit.value - a.entryPrice == 1.5 * (a.entryPrice - a.stopLoss.value))
            && (a.signalType == SELL ==>
                  a.entryPrice - a.takeProfit.value == 1.5 * (a.stopLoss.value - a.entryPrice))
  {
  }

  /** The risk/reward ratio is `null` or exactly 1.5: it is 1.5 precisely when
      the call is directional and both levels are non-zero. */
  lemma RiskRewardOfAnalysis(ind: IndicatorSet)
    ensures var a := Analyze(ind);
            && (a.riskReward == Finite(1.5) <==>
                  a.signalType != HOLD && a.stopLoss.value != 0.0 && a.takeProfit.value != 0.0)
            && (a.riskReward != Finite(1.5) ==> a.riskReward == Null)
  {
    var a := Analyze(ind);
    var entry := OrElse(ind.sma20, 0.0);
    var atr := OrElse(ind.atr, entry * 0.02);
    if a.signalType != HOLD && a.stopLoss.value != 0.0 && a.takeProfit.value != 0.0 {
      assert atr != 0.0;
      var risk := Abs(entry - a.stopLoss.value);
      assert risk == 2.0 * Abs(atr);
      assert Abs(a.takeProfit.value - entry) == 3.0 * Abs(atr);
      assert 3.0 * Abs(atr) / (2.0 * Abs(atr)) == 1.5;
    }
  }

  /** Without a truthy ATR the levels are 2% and 3% of the entry away from
      it (4% and 6% once doubled and tripled). */
  lemma AtrFallback(ind: IndicatorSet)
    requires !Truthy(ind.atr)
    ensures var a := Analyze(ind);
            && (a.signalType == BUY ==>
                  a.stopLoss == Some(a.entryPrice * 0.96) && a.takeProfit == Some(a.entryPrice * 1.06))
            && (a.signalType == SELL ==>
                  a.stopLoss == Some(a.entryPrice * 1.04) && a.takeProfit == Some(a.entryPrice * 0.94))
  {
  }

  /** The Bollinger rule never votes on computed indicators: its stand-in
      for the current price is the SMA 20 itself, which always lies between
      its own bands. So only RSI, MACD and the SMA crossover ever vote. */
  lemma BollingerNeverVotes(klines: seq<Candle>, sqrt: real -> real)
    requires forall x :: x >= 0.0 ==> sqrt(x) >= 0.0
    ensures BollingerRule(TechnicalIndicators(klines, sqrt)) == None
  {
    if |klines| >= MinKlines {
      BandsAroundSma(Closes(klines), 20, 2.0, sqrt);
    }
  }

  /** With fewer than 50 klines the record is `{}`: the RSI guard passes but
      both comparisons are false, the MACD and SMA guards pass and their
      false comparisons vote SELL, and the Bollinger rule sees a falsy price.
      The service therefore calls SELL at weight 0.45 with entry 0. */
  lemma ShortHistorySells()
    ensures var a := Analyze(NoIndicators);
            && a.signalType == SELL
            && a.votes == [Vote(Sell, 0.25, "MACD bearish crossover"), Vote(Sell, 0.2, "SMA 20 < SMA 50")]
            && a.buyWeight == 0.0 && a.sellWeight == 0.45
            && a.strength == 0.45 && a.confidence == 45.0
            && a.entryPrice == 0.0 && a.stopLoss == Some(0.0) && a.takeProfit == Some(0.0)
            && a.riskReward == Null
  {
    WeightOfVotes(NoIndicators, Buy);
    WeightOfVotes(NoIndicators, Sell);
    WeightsPartitionTotal(Votes(NoIndicators));
  }

  /** RSI 25, MACD 1.2 over 0.8, SMA 20 at 105 over SMA 50 at 100 and an ATR
      of 2 (bands absent) give BUY at 0.75, confidence 75, stop 101, target
      111 and a 1.5 risk/reward ratio. */
  lemma OversoldUptrendBuys()
    ensures var ind := IndicatorSet(
              Finite(105.0), Finite(100.0), Undefined, Undefined,
              Finite(1.2), Finite(0.8), Finite(25.0),
              Undefined, Undefined, Undefined, Undefined, Finite(2.0));
            var a := Analyze(ind);
            && a.signalType == BUY && a.strength == 0.75 && a.confidence == 75.0
            && a.entryPrice == 105.0 && a.stopLoss == Some(101.0) && a.takeProfit == Some(111.0)
            && a.riskReward == Finite(1.5)
  {
    var ind := IndicatorSet(
      Finite(105.0), Finite(100.0), Undefined, Undefined,
      Finite(1.2), Finite(0.8), Finite(25.0),
      Undefined, Undefined, Undefined, Undefined, Finite(2.0));
    assert RsiRule(ind) == Some(Vote(Buy, 0.3, "RSI oversold"));
    assert MacdRule(ind) == Some(Vote(Buy, 0.25, "MACD bullish crossover"));
    assert SmaRule(ind) == Some(Vote(Buy, 0.2, "SMA 20 > SMA 50"));
    assert BollingerRule(ind) == None;
    WeightOfVotes(ind, Buy);
    WeightOfVotes(ind, Sell);
    WeightsPartitionTotal(Votes(ind));
    var buy, sell := Weight(Votes(ind), Buy), Weight(Votes(ind), Sell);
    assert buy == 0.75 && sell == 0.0;
    assert Decide(buy, sell) == BUY;
  }

  // ---------------------------------------------------------------------
  // The service's own procedure

  /** `signals.push(vote); strength += vote.weight` when a rule fired. */
  method Push(votes: seq<Vote>, strength: real, vote: Option<Vote>) returns (votes': seq<Vote>, strength': real)
    requires strength == TotalWeight(votes)
    ensures votes' == votes + Ballot(vote)
    ensures strength' == TotalWeight(votes')
  {
    votes', strength' := votes, strength;
    if vote.Some? {
      TotalWeightOfPush(votes, vote.value);
      votes' := votes + [vote.value];
      strength' := strength + vote.value.weight;
    } else {
      assert votes + [] == votes;
    }
  }

  /** The four rule blocks: each pushes at most one vote and adds its weight
      to the running strength. */
  method CollectVotes(ind: IndicatorSet) returns (votes: seq<Vote>, strength: real)
    ensures votes == Votes(ind)
    ensures strength == TotalWeight(votes)
  {
    votes := [];
    strength := 0.0;

    var rsiVote := None;
    if NotNull(ind.rsi) {
      if Less(ind.rsi, Finite(30.0)) {
        rsiVote := Some(Vote(Buy, 0.3, "RSI oversold"));
      } else if Greater(ind.rsi, Finite(70.0)) {
        rsiVote := Some(Vote(Sell, 0.3, "RSI overbought"));
      }
    }
    assert rsiVote == RsiRule(ind);
    votes, strength := Push(votes, strength, rsiVote);

    var macdVote := None;
    if NotNull(ind.macd) && NotNull(ind.macdSignal) {
      if Greater(ind.macd, ind.macdSignal) {
        macdVote := Some(Vote(Buy, 0.25, "MACD bullish crossover"));
      } else {
        macdVote := Some(Vote(Sell, 0.25, "MACD bearish crossover"));
      }
    }
    assert macdVote == MacdRule(ind);
    votes, strength := Push(votes, strength, macdVote);

    var smaVote := None;
    if NotNull(ind.sma20) && NotNull(ind.sma50) {
      if Greater(ind.sma20, ind.sma50) {
        smaVote := Some(Vote(Buy, 0.2, "SMA 20 > SMA 50"));
      } else {
        smaVote := Some(Vote(Sell, 0.2, "SMA 20 < SMA 50"));
      }
    }
    assert smaVote == SmaRule(ind);
    votes, strength := Push(votes, strength, smaVote);

    var bandVote := None;
    if NotNull(ind.bollingerUpper) && NotNull(ind.bollingerLower) {
      var currentPrice := ind.sma20;
      if Truthy(currentPrice) && Less(currentPrice, ind.bollingerLower) {
        bandVote := Some(Vote(Buy, 0.15, "Price below Bollinger lower band"));
      } else if Truthy(currentPrice) && Greater(currentPrice, ind.bollingerUpper) {
        bandVote := Some(Vote(Sell, 0.15, "Price above Bollinger upper band"));
      }
    }
    assert bandVote == BollingerRule(ind);
    votes, strength := Push(votes, strength, bandVote);
  }

  /** The decision block of `analyzeMarketConditions`: the side with the
      larger weight wins when it is above 0.4, with the weight as confidence
      (capped at 95); otherwise HOLD at confidence 30. */
  method Decision(buyWeight: real, sellWeight: real) returns (signalType: SignalType, confidence: real)
    ensures signalType == Decide(buyWeight, sellWeight)
    ensures confidence == Confidence(signalType, buyWeight, sellWeight)
  {
    signalType := HOLD;
    if buyWeight > sellWeight && buyWeight > 0.4 {
      signalType := BUY;
      confidence := Cap(buyWeight * 100.0, 95.0);
    } else if sellWeight > buyWeight && sellWeight > 0.4 {
      signalType := SELL;
      confidence := Cap(sellWeight * 100.0, 95.0);
    } else {
      confidence := 30.0;
    }
  }

  method AnalyzeMarketConditions(ind: IndicatorSet) returns (a: Analysis)
    ensures a == Analyze(ind)
  {
    var votes, strength := CollectVotes(ind);
    var buyWeight := Weight(votes, Buy);
    var sellWeight := Weight(votes, Sell);
    var signalType, confidence := Decision(buyWeight, sellWeight);

    var entryPrice := OrElse(ind.sma20, 0.0);
    var atr := OrElse(ind.atr, entryPrice * 0.02);
    var stopLoss := StopLoss(signalType, entryPrice, atr);
    var takeProfit := TakeProfit(signalType, entryPrice, atr);

    a := Analysis(signalType, Cap(strength, 1.0), entryPrice, stopLoss, takeProfit,
                  RiskReward(entryPrice, stopLoss, takeProfit), confidence, ind, votes,
                  buyWeight, sellWeight);
    ghost var spec := Analyze(ind);
    assert spec.votes == votes && spec.buyWeight == buyWeight && spec.sellWeight == sellWeight;
    assert spec.signalType == signalType && spec.confidence == confidence;
    assert spec.entryPrice == entryPrice && spec.stopLoss == stopLoss && spec.takeProfit == takeProfit;
  }
}
