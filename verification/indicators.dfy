/** The indicator engine of the AI service: moving averages, MACD, RSI,
    Bollinger bands, the stochastic oscillator and the average true range,
    computed from a sequence of klines (candles), oldest first.

    Each indicator is given twice: as a specification function (what the value
    IS), and, where the service computes it with a loop, as a method that runs
    the same loop and is proved to return the specification's value. */
module Indicators {
  import opened Wrappers
  import opened JsValues

  /** One kline, reduced to the numbers the engine reads. */
  datatype Candle = Candle(open: real, high: real, low: real, close: real, volume: real)

  function Closes(ks: seq<Candle>): seq<real> {
    seq(|ks|, i requires 0 <= i < |ks| => ks[i].close)
  }

  function Highs(ks: seq<Candle>): seq<real> {
    seq(|ks|, i requires 0 <= i < |ks| => ks[i].high)
  }

  function Lows(ks: seq<Candle>): seq<real> {
    seq(|ks|, i requires 0 <= i < |ks| => ks[i].low)
  }

  /** Left-to-right sum, as `reduce((a, b) => a + b, 0)`. */
  function Sum(s: seq<real>): real {
    if |s| == 0 then 0.0 else Sum(s[..|s| - 1]) + s[|s| - 1]
  }

  /** The last `n` values. */
  function LastN(values: seq<real>, n: nat): seq<real>
    requires n <= |values|
  {
    values[|values| - n..]
  }

  lemma {:induction false} SumBounds(s: seq<real>, lo: real, hi: real)
    requires forall i :: 0 <= i < |s| ==> lo <= s[i] <= hi
    ensures |s| as real * lo <= Sum(s) <= |s| as real * hi
  {
    if |s| > 0 {
      SumBounds(s[..|s| - 1], lo, hi);
      assert |s| as real * lo == (|s| - 1) as real * lo + lo;
      assert |s| as real * hi == (|s| - 1) as real * hi + hi;
    }
  }

  lemma {:induction false} SumMonotone(s: seq<real>, t: seq<real>)
    requires |s| == |t|
    requires forall i :: 0 <= i < |s| ==> s[i] <= t[i]
    ensures Sum(s) <= Sum(t)
  {
    if |s| > 0 {
      SumMonotone(s[..|s| - 1], t[..|t| - 1]);
    }
  }

  lemma {:induction false} SumNonNegative(s: seq<real>)
    requires forall i :: 0 <= i < |s| ==> 0.0 <= s[i]
    ensures Sum(s) >= 0.0
  {
    if |s| > 0 {
      SumNonNegative(s[..|s| - 1]);
    }
  }

  /** A total `n * lo <= sum <= n * hi` yields `lo <= sum / n <= hi`. */
  lemma MeanBounds(sum: real, n: real, lo: real, hi: real)
    requires n > 0.0
    requires n * lo <= sum <= n * hi
    ensures lo <= sum / n <= hi
  {
    var m := sum / n;
    assert sum == n * m;
  }

  // ---------------------------------------------------------------------
  // Simple moving average (server/services/ai.js:76-80)

  /** SMA(period): `null` with fewer than `period` values, otherwise the mean
      of the last `period` values. */
  function Sma(values: seq<real>, period: nat): (r: Option<real>)
    requires period > 0
    ensures r.None? <==> |values| < period
  {
    if |values| < period then None
    else Some(Sum(LastN(values, period)) / period as real)
  }

  /** The SMA lies between any lower and upper bound of its window. */
  lemma SmaWithinWindow(values: seq<real>, period: nat, lo: real, hi: real)
    requires 0 < period <= |values|
    requires forall i :: |values| - period <= i < |values| ==> lo <= values[i] <= hi
    ensures lo <= Sma(values, period).value <= hi
  {
    var w := LastN(values, period);
    assert forall i :: 0 <= i < |w| ==> w[i] == values[|values| - period + i];
    SumBounds(w, lo, hi);
    MeanBounds(Sum(w), period as real, lo, hi);
  }

  // ---------------------------------------------------------------------
  // Exponential moving average (server/services/ai.js:82-93)

  /** The smoothing factor k = 2 / (period + 1). */
  function Multiplier(period: nat): (k: real)
    ensures 0.0 < k <= 1.0 || period == 0
  {
    2.0 / (period + 1) as real
  }

  /** `ema := x * k + ema * (1 - k)` folded over `xs` from the left. */
  function EmaFold(seed: real, xs: seq<real>, k: real): real {
    if |xs| == 0 then seed
    else xs[|xs| - 1] * k + EmaFold(seed, xs[..|xs| - 1], k) * (1.0 - k)
  }

  /** EMA(period): `null` with fewer than `period` values; otherwise seeded
      with the mean of the first `period` values and folded over the rest. */
  function Ema(values: seq<real>, period: nat): (r: Option<real>)
    requires period > 0
    ensures r.None? <==> |values| < period
  {
    if |values| < period then None
    else Some(EmaFold(Sum(values[..period]) / period as real, values[period..], Multiplier(period)))
  }

  lemma ConvexStep(x: real, e: real, k: real, lo: real, hi: real)
    requires 0.0 <= k <= 1.0
    requires lo <= x <= hi && lo <= e <= hi
    ensures lo <= x * k + e * (1.0 - k) <= hi
  {
    assert (x - lo) * k >= 0.0;
    assert (e - lo) * (1.0 - k) >= 0.0;
    assert (hi - x) * k >= 0.0;
    assert (hi - e) * (1.0 - k) >= 0.0;
  }

  lemma {:induction false} EmaFoldWithin(seed: real, xs: seq<real>, k: real, lo: real, hi: real)
    requires 0.0 <= k <= 1.0
    requires lo <= seed <= hi
    requires forall i :: 0 <= i < |xs| ==> lo <= xs[i] <= hi
    ensures lo <= EmaFold(seed, xs, k) <= hi
  {
    if |xs| > 0 {
      EmaFoldWithin(seed, xs[..|xs| - 1], k, lo, hi);
      ConvexStep(xs[|xs| - 1], EmaFold(seed, xs[..|xs| - 1], k), k, lo, hi);
    }
  }

  /** Every EMA is a weighted average of its inputs: it stays within any
      bounds the whole series stays within. */
  lemma EmaWithinRange(values: seq<real>, period: nat, lo: real, hi: real)
    requires 0 < period <= |values|
    requires forall i :: 0 <= i < |values| ==> lo <= values[i] <= hi
    ensures lo <= Ema(values, period).value <= hi
  {
    var head := values[..period];
    SumBounds(head, lo, hi);
    MeanBounds(Sum(head), period as real, lo, hi);
    EmaFoldWithin(Sum(head) / period as real, values[period..], Multiplier(period), lo, hi);
  }

  /** The EMA of a constant series is that constant. */
  lemma EmaOfConstantSeries(values: seq<real>, period: nat, c: real)
    requires 0 < period <= |values|
    requires forall i :: 0 <= i < |values| ==> values[i] == c
    ensures Ema(values, period) == Some(c)
  {
    EmaWithinRange(values, period, c, c);
  }

  method CalculateEma(values: seq<real>, period: nat) returns (r: Option<real>)
    requires period > 0
    ensures r == Ema(values, period)
  {
    if |values| < period {
      return None;
    }
    var multiplier := Multiplier(period);
    var ema := Sum(values[..period]) / period as real;
    ghost var seed := ema;
    var i := period;
    while i < |values|
      invariant period <= i <= |values|
      invariant ema == EmaFold(seed, values[period..i], multiplier)
    {
      ema := values[i] * multiplier + ema * (1.0 - multiplier);
      assert values[period..i + 1][..i - period] == values[period..i];
      i := i + 1;
    }
    assert values[period..i] == values[period..];
    return Some(ema);
  }

  // ---------------------------------------------------------------------
  // MACD (server/services/ai.js:95-111)

  const FastPeriod: nat := 12
  const SlowPeriod: nat := 26
  const SignalPeriod: nat := 9

  datatype Macd = Macd(macd: Num, signal: Num)

  /** The MACD series: EMA(12) - EMA(26) recomputed over each prefix of at
      least 26 closes. */
  function MacdLine(closes: seq<real>): (line: seq<real>)
    requires |closes| >= SlowPeriod
    ensures |line| == |closes| - SlowPeriod + 1
  {
    seq(|closes| - SlowPeriod + 1, i requires 0 <= i < |closes| - SlowPeriod + 1 =>
      Ema(closes[..SlowPeriod + i], FastPeriod).value - Ema(closes[..SlowPeriod + i], SlowPeriod).value)
  }

  /** MACD and its signal line. Both are `null` when either EMA is falsy: an
      EMA of exactly 0 counts as missing, like a missing one. */
  function MacdOf(closes: seq<real>): Macd {
    var fast, slow := Ema(closes, FastPeriod), Ema(closes, SlowPeriod);
    if !Truthy(FromOption(fast)) || !Truthy(FromOption(slow)) then Macd(Null, Null)
    else Macd(Finite(fast.value - slow.value), FromOption(Ema(MacdLine(closes), SignalPeriod)))
  }

  /** The MACD value is the last point of the MACD series, and with at least
      34 closes the signal line is defined. */
  lemma MacdIsLastOfLine(closes: seq<real>)
    requires MacdOf(closes).macd != Null
    ensures |closes| >= SlowPeriod
    ensures MacdOf(closes).macd == Finite(MacdLine(closes)[|closes| - SlowPeriod])
    ensures |closes| >= SlowPeriod + SignalPeriod - 1 ==> MacdOf(closes).signal.Finite?
  {
    assert closes[..SlowPeriod + (|closes| - SlowPeriod)] == closes;
  }

  /** The truthiness test makes MACD `null` whenever the fast EMA is exactly
      zero, although both EMAs are defined. */
  lemma MacdNullOnZeroEma(closes: seq<real>)
    requires |closes| >= SlowPeriod
    requires Ema(closes, FastPeriod) == Some(0.0)
    ensures MacdOf(closes) == Macd(Null, Null)
  {
  }

  method CalculateMacd(closes: seq<real>) returns (m: Macd)
    ensures m == MacdOf(closes)
  {
    var emaFast := CalculateEma(closes, FastPeriod);
    var emaSlow := CalculateEma(closes, SlowPeriod);
    if !Truthy(FromOption(emaFast)) || !Truthy(FromOption(emaSlow)) {
      return Macd(Null, Null);
    }
    var macd := emaFast.value - emaSlow.value;
    var line: seq<real> := [];
    var i := 0;
    while i < |closes| - SlowPeriod + 1
      invariant 0 <= i <= |closes| - SlowPeriod + 1
      invariant line == MacdLine(closes)[..i]
    {
      var fastEma := CalculateEma(closes[..SlowPeriod + i], FastPeriod);
      var slowEma := CalculateEma(closes[..SlowPeriod + i], SlowPeriod);
      line := line + [fastEma.value - slowEma.value];
      i := i + 1;
    }
    assert line == MacdLine(closes);
    var signal := CalculateEma(line, SignalPeriod);
    return Macd(Finite(macd), FromOption(signal));
  }

  // ---------------------------------------------------------------------
  // RSI with Wilder smoothing (server/services/ai.js:113-144)

  function Change(closes: seq<real>, i: nat): real
    requires 1 <= i < |closes|
  {
    closes[i] - closes[i - 1]
  }

  /** Sum of the positive changes among the first `i` changes. */
  function SumGains(closes: seq<real>, i: nat): (r: real)
    requires i < |closes|
    ensures r >= 0.0
  {
    if i == 0 then 0.0
    else SumGains(closes, i - 1) + (if Change(closes, i) > 0.0 then Change(closes, i) else 0.0)
  }

  /** Sum of the magnitudes of the non-positive changes among the first `i`. */
  function SumLosses(closes: seq<real>, i: nat): (r: real)
    requires i < |closes|
    ensures r >= 0.0
  {
    if i == 0 then 0.0
    else SumLosses(closes, i - 1) + (if Change(closes, i) > 0.0 then 0.0 else -Change(closes, i))
  }

  lemma NonNegScaled(a: real, p: real)
    requires a >= 0.0 && p >= 1.0
    ensures a * (p - 1.0) >= 0.0
  {
  }

  /** One Wilder update of the average gain by a new change. */
  function NextGain(avgGain: real, change: real, period: nat): (r: real)
    requires period > 0 && avgGain >= 0.0
    ensures r >= 0.0
  {
    var p := period as real;
    assert avgGain * (p - 1.0) >= 0.0;
    if change > 0.0 then (avgGain * (p - 1.0) + change) / p else (avgGain * (p - 1.0)) / p
  }

  /** One Wilder update of the average loss by a new change. */
  function NextLoss(avgLoss: real, change: real, period: nat): (r: real)
    requires period > 0 && avgLoss >= 0.0
    ensures r >= 0.0
  {
    var p := period as real;
    assert avgLoss * (p - 1.0) >= 0.0;
    if change > 0.0 then (avgLoss * (p - 1.0)) / p else (avgLoss * (p - 1.0) - change) / p
  }

  /** (average gain, average loss) after the changes up to index `i`: the
      plain averages of the first `period` changes, then one Wilder update per
      further change. Both stay non-negative. */
  function Averages(closes: seq<real>, period: nat, i: nat): (r: (real, real))
    requires 0 < period <= i < |closes|
    ensures r.0 >= 0.0 && r.1 >= 0.0
    decreases i
  {
    if i == period then (SumGains(closes, period) / period as real, SumLosses(closes, period) / period as real)
    else
      var prev := Averages(closes, period, i - 1);
      (NextGain(prev.0, Change(closes, i), period), NextLoss(prev.1, Change(closes, i), period))
  }

  /** `100 - 100 / (1 + avgGain / avgLoss)` under IEEE arithmetic: a zero
      average loss with a positive average gain makes the ratio +Infinity and
      the RSI exactly 100; both zero make it NaN. */
  function RsiFrom(avgGain: real, avgLoss: real): Num
    requires avgGain >= 0.0 && avgLoss >= 0.0
  {
    if avgLoss > 0.0 then Finite(100.0 - 100.0 / (1.0 + avgGain / avgLoss))
    else if avgGain > 0.0 then Finite(100.0)
    else NaN
  }

  /** RSI(period): `null` with fewer than `period + 1` closes. */
  function Rsi(closes: seq<real>, period: nat): (r: Num)
    requires period > 0
    ensures r.Null? <==> |closes| < period + 1
  {
    if |closes| < period + 1 then Null
    else
      var avg := Averages(closes, period, |closes| - 1);
      RsiFrom(avg.0, avg.1)
  }

  /** A defined RSI lies in [0, 100], and below 100 whenever the average loss
      is positive. */
  lemma RsiInRange(closes: seq<real>, period: nat)
    requires 0 < period && period + 1 <= |closes|
    ensures Rsi(closes, period).Finite? ==> 0.0 <= Rsi(closes, period).v <= 100.0
    ensures Averages(closes, period, |closes| - 1).1 > 0.0 ==>
              Rsi(closes, period).Finite? && Rsi(closes, period).v < 100.0
  {
    var avg := Averages(closes, period, |closes| - 1);
    if avg.1 > 0.0 {
      var rs := avg.0 / avg.1;
      assert rs >= 0.0;
      var q := 100.0 / (1.0 + rs);
      assert q * (1.0 + rs) == 100.0;
      assert 0.0 < q <= 100.0;
    }
  }

  predicate StrictlyRising(closes: seq<real>) {
    forall i :: 1 <= i < |closes| ==> closes[i - 1] < closes[i]
  }

  predicate StrictlyFalling(closes: seq<real>) {
    forall i :: 1 <= i < |closes| ==> closes[i - 1] > closes[i]
  }

  lemma WilderStepOnGain(avgGain: real, avgLoss: real, change: real, period: nat)
    requires period > 0 && avgGain > 0.0 && avgLoss == 0.0 && change > 0.0
    ensures NextGain(avgGain, change, period) > 0.0 && NextLoss(avgLoss, change, period) == 0.0
  {
    var p := period as real;
    NonNegScaled(avgGain, p);
    assert avgGain * (p - 1.0) + change > 0.0;
  }

  lemma WilderStepOnLoss(avgGain: real, avgLoss: real, change: real, period: nat)
    requires period > 0 && avgGain == 0.0 && avgLoss > 0.0 && change < 0.0
    ensures NextGain(avgGain, change, period) == 0.0 && NextLoss(avgLoss, change, period) > 0.0
  {
    var p := period as real;
    NonNegScaled(avgLoss, p);
    assert avgLoss * (p - 1.0) - change > 0.0;
  }

  lemma {:induction false} RisingAverages(closes: seq<real>, period: nat, i: nat)
    requires 0 < period <= i < |closes|
    requires StrictlyRising(closes)
    ensures Averages(closes, period, i).0 > 0.0 && Averages(closes, period, i).1 == 0.0
    decreases i
  {
    if i == period {
      RisingSums(closes, period);
    } else {
      RisingAverages(closes, period, i - 1);
      var prev := Averages(closes, period, i - 1);
      WilderStepOnGain(prev.0, prev.1, Change(closes, i), period);
    }
  }

  lemma {:induction false} RisingSums(closes: seq<real>, i: nat)
    requires 0 < i < |closes|
    requires StrictlyRising(closes)
    ensures SumGains(closes, i) > 0.0 && SumLosses(closes, i) == 0.0
    decreases i
  {
    if i > 1 {
      RisingSums(closes, i - 1);
    }
  }

  lemma {:induction false} FallingAverages(closes: seq<real>, period: nat, i: nat)
    requires 0 < period <= i < |closes|
    requires StrictlyFalling(closes)
    ensures Averages(closes, period, i).0 == 0.0 && Averages(closes, period, i).1 > 0.0
    decreases i
  {
    if i == period {
      FallingSums(closes, period);
    } else {
      FallingAverages(closes, period, i - 1);
      var prev := Averages(closes, period, i - 1);
      WilderStepOnLoss(prev.0, prev.1, Change(closes, i), period);
    }
  }

  lemma {:induction false} FallingSums(closes: seq<real>, i: nat)
    requires 0 < i < |closes|
    requires StrictlyFalling(closes)
    ensures SumGains(closes, i) == 0.0 && SumLosses(closes, i) > 0.0
    decreases i
  {
    if i > 1 {
      FallingSums(closes, i - 1);
    }
  }

  /** On a strictly rising series the RSI is exactly 100. */
  lemma RsiOfRisingSeries(closes: seq<real>, period: nat)
    requires 0 < period && period + 1 <= |closes|
    requires StrictlyRising(closes)
    ensures Rsi(closes, period) == Finite(100.0)
  {
    RisingAverages(closes, period, |closes| - 1);
  }

  /** On a strictly falling series the RSI is exactly 0. */
  lemma RsiOfFallingSeries(closes: seq<real>, period: nat)
    requires 0 < period && period + 1 <= |closes|
    requires StrictlyFalling(closes)
    ensures Rsi(closes, period) == Finite(0.0)
  {
    FallingAverages(closes, period, |closes| - 1);
  }

  /** The first loop of the RSI: total gains and losses of the first
      `period` changes. */
  method SeedSums(closes: seq<real>, period: nat) returns (gains: real, losses: real)
    requires 0 < period < |closes|
    ensures gains == SumGains(closes, period) && losses == SumLosses(closes, period)
  {
    gains, losses := 0.0, 0.0;
    var i := 1;
    while i <= period
      invariant 1 <= i <= period + 1
      invariant gains == SumGains(closes, i - 1) && losses == SumLosses(closes, i - 1)
    {
      var change := closes[i] - closes[i - 1];
      if change > 0.0 {
        gains := gains + change;
      } else {
        losses := losses - change;
      }
      i := i + 1;
    }
  }

  /** One smoothing step as the loop body performs it. */
  method WilderUpdate(avgGain: real, avgLoss: real, change: real, period: nat)
    returns (gain: real, loss: real)
    requires period > 0 && avgGain >= 0.0 && avgLoss >= 0.0
    ensures gain == NextGain(avgGain, change, period) && loss == NextLoss(avgLoss, change, period)
  {
    var p := period as real;
    if change > 0.0 {
      gain := (avgGain * (p - 1.0) + change) / p;
      loss := (avgLoss * (p - 1.0)) / p;
    } else {
      gain := (avgGain * (p - 1.0)) / p;
      loss := (avgLoss * (p - 1.0) - change) / p;
    }
  }

  /** The second loop of the RSI: Wilder smoothing over the remaining
      changes. */
  method Smooth(closes: seq<real>, period: nat, gains: real, losses: real)
    returns (avgGain: real, avgLoss: real)
    requires 0 < period < |closes|
    requires gains == SumGains(closes, period) && losses == SumLosses(closes, period)
    ensures avgGain == Averages(closes, period, |closes| - 1).0
    ensures avgLoss == Averages(closes, period, |closes| - 1).1
  {
    var p := period as real;
    avgGain := gains / p;
    avgLoss := losses / p;
    var i := period + 1;
    while i < |closes|
      invariant period + 1 <= i <= |closes|
      invariant avgGain == Averages(closes, period, i - 1).0
      invariant avgLoss == Averages(closes, period, i - 1).1
    {
      var change := closes[i] - closes[i - 1];
      assert change == Change(closes, i);
      avgGain, avgLoss := WilderUpdate(avgGain, avgLoss, change, period);
      i := i + 1;
    }
  }

  method CalculateRsi(closes: seq<real>, period: nat) returns (r: Num)
    requires period > 0
    ensures r == Rsi(closes, period)
  {
    if |closes| < period + 1 {
      return Null;
    }
    var gains, losses := SeedSums(closes, period);
    var avgGain, avgLoss := Smooth(closes, period, gains, losses);
    r := RsiFrom(avgGain, avgLoss);
  }

  // ---------------------------------------------------------------------
  // Bollinger bands (server/services/ai.js:146-158)

  /** Sum of squared deviations from `mean`. */
  function SumSquares(window: seq<real>, mean: real): (r: real)
    ensures r >= 0.0
  {
    if |window| == 0 then 0.0
    else
      var d := window[|window| - 1] - mean;
      SumSquares(window[..|window| - 1], mean) + d * d
  }

  datatype Bands = Bands(upper: Num, lower: Num)

  /** Bands at SMA(period) plus and minus `stdDev` population standard
      deviations of the same window; `sqrt` is the square root the service
      calls. */
  function Bollinger(closes: seq<real>, period: nat, stdDev: real, sqrt: real -> real): Bands
    requires period > 0
  {
    if |closes| < period then Bands(Null, Null)
    else
      var sma := Sma(closes, period).value;
      var variance := SumSquares(LastN(closes, period), sma) / period as real;
      var deviation := sqrt(variance);
      Bands(Finite(sma + deviation * stdDev), Finite(sma - deviation * stdDev))
  }

  /** Given a square root that is non-negative on non-negative inputs, the
      bands sit symmetrically around the SMA, the lower one below the upper. */
  lemma BandsAroundSma(closes: seq<real>, period: nat, stdDev: real, sqrt: real -> real)
    requires 0 < period <= |closes| && stdDev >= 0.0
    requires forall x :: x >= 0.0 ==> sqrt(x) >= 0.0
    ensures var b := Bollinger(closes, period, stdDev, sqrt);
            var sma := Sma(closes, period).value;
            && b.upper.Finite? && b.lower.Finite?
            && b.lower.v <= sma <= b.upper.v
            && b.upper.v - sma == sma - b.lower.v
  {
    var sma := Sma(closes, period).value;
    var variance := SumSquares(LastN(closes, period), sma) / period as real;
    assert variance >= 0.0;
    var deviation := sqrt(variance);
    assert deviation * stdDev >= 0.0;
  }

  // ---------------------------------------------------------------------
  // Stochastic oscillator (server/services/ai.js:160-188)

  function Max(s: seq<real>): real
    requires |s| > 0
  {
    if |s| == 1 then s[0]
    else
      var m := Max(s[..|s| - 1]);
      if s[|s| - 1] > m then s[|s| - 1] else m
  }

  function Min(s: seq<real>): real
    requires |s| > 0
  {
    if |s| == 1 then s[0]
    else
      var m := Min(s[..|s| - 1]);
      if s[|s| - 1] < m then s[|s| - 1] else m
  }

  /** `Math.max(...s)` is an element of `s` and bounds every element. */
  lemma {:induction false} MaxIsGreatest(s: seq<real>)
    requires |s| > 0
    ensures Max(s) in s
    ensures forall i :: 0 <= i < |s| ==> s[i] <= Max(s)
  {
    if |s| > 1 {
      var init := s[..|s| - 1];
      MaxIsGreatest(init);
      assert forall i :: 0 <= i < |s| - 1 ==> s[i] == init[i];
    }
  }

  /** `Math.min(...s)` is an element of `s` and bounds every element. */
  lemma {:induction false} MinIsLeast(s: seq<real>)
    requires |s| > 0
    ensures Min(s) in s
    ensures forall i :: 0 <= i < |s| ==> Min(s) <= s[i]
  {
    if |s| > 1 {
      var init := s[..|s| - 1];
      MinIsLeast(init);
      assert forall i :: 0 <= i < |s| - 1 ==> s[i] == init[i];
    }
  }

  predicate SameLength(highs: seq<real>, lows: seq<real>, closes: seq<real>) {
    |highs| == |closes| && |lows| == |closes|
  }

  /** %K over the `kPeriod` candles ending at index `end`. A zero high-low
      range divides by zero, which the service turns into NaN or an infinity;
      the model has no value there. */
  function PercentK(highs: seq<real>, lows: seq<real>, closes: seq<real>, end: nat, kPeriod: nat): Option<real>
    requires SameLength(highs, lows, closes)
    requires 0 < kPeriod <= end + 1 <= |closes|
  {
    var highest := Max(highs[end + 1 - kPeriod..end + 1]);
    var lowest := Min(lows[end + 1 - kPeriod..end + 1]);
    if highest - lowest == 0.0 then None
    else Some((closes[end] - lowest) / (highest - lowest) * 100.0)
  }

  /** %K at every index from `kPeriod - 1` on. */
  function KSeries(highs: seq<real>, lows: seq<real>, closes: seq<real>, kPeriod: nat): (ks: seq<Option<real>>)
    requires SameLength(highs, lows, closes)
    requires 0 < kPeriod <= |closes|
    ensures |ks| == |closes| - kPeriod + 1
  {
    seq(|closes| - kPeriod + 1, j requires 0 <= j < |closes| - kPeriod + 1 =>
      PercentK(highs, lows, closes, kPeriod - 1 + j, kPeriod))
  }

  predicate AllDefined(w: seq<Option<real>>) {
    forall i :: 0 <= i < |w| ==> w[i].Some?
  }

  function Defined(w: seq<Option<real>>): (r: seq<real>)
    requires AllDefined(w)
  {
    seq(|w|, i requires 0 <= i < |w| => w[i].value)
  }

  /** SMA(dPeriod) over the %K series: `null` when it is too short, not a
      number when a %K in the window had no value. */
  function SmaOfK(ks: seq<Option<real>>, dPeriod: nat): Num
    requires dPeriod > 0
  {
    if |ks| < dPeriod then Null
    else
      var w := ks[|ks| - dPeriod..];
      if AllDefined(w) then Finite(Sum(Defined(w)) / dPeriod as real) else NaN
  }

  function KValue(k: Option<real>): Num {
    match k
    case Some(v) => Finite(v)
    case None => NaN
  }

  datatype Stochastic = Stochastic(k: Num, d: Num)

  function StochasticOf(highs: seq<real>, lows: seq<real>, closes: seq<real>, kPeriod: nat, dPeriod: nat): Stochastic
    requires SameLength(highs, lows, closes)
    requires kPeriod > 0 && dPeriod > 0
  {
    if |closes| < kPeriod then Stochastic(Null, Null)
    else Stochastic(KValue(PercentK(highs, lows, closes, |closes| - 1, kPeriod)),
                    SmaOfK(KSeries(highs, lows, closes, kPeriod), dPeriod))
  }

  /** Every candle closes within its own high-low range. */
  predicate WellFormed(highs: seq<real>, lows: seq<real>, closes: seq<real>)
    requires SameLength(highs, lows, closes)
  {
    forall i :: 0 <= i < |closes| ==> lows[i] <= closes[i] <= highs[i]
  }

  lemma RatioInUnit(a: real, b: real)
    requires 0.0 <= a <= b && b > 0.0
    ensures 0.0 <= a / b * 100.0 <= 100.0
  {
    var q := a / b;
    assert q * b == a;
  }

  /** On well-formed candles every defined %K lies in [0, 100]. */
  lemma PercentKInRange(highs: seq<real>, lows: seq<real>, closes: seq<real>, end: nat, kPeriod: nat)
    requires SameLength(highs, lows, closes) && WellFormed(highs, lows, closes)
    requires 0 < kPeriod <= end + 1 <= |closes|
    ensures var k := PercentK(highs, lows, closes, end, kPeriod);
            k.Some? ==> 0.0 <= k.value <= 100.0
  {
    var hs := highs[end + 1 - kPeriod..end + 1];
    var ls := lows[end + 1 - kPeriod..end + 1];
    assert hs[kPeriod - 1] == highs[end] && ls[kPeriod - 1] == lows[end];
    var highest, lowest := Max(hs), Min(ls);
    MaxIsGreatest(hs);
    MinIsLeast(ls);
    if highest - lowest != 0.0 {
      RatioInUnit(closes[end] - lowest, highest - lowest);
    }
  }

  /** On well-formed candles every defined entry of the %K series lies in
      [0, 100]. */
  lemma KSeriesInRange(highs: seq<real>, lows: seq<real>, closes: seq<real>, kPeriod: nat)
    requires SameLength(highs, lows, closes) && WellFormed(highs, lows, closes)
    requires 0 < kPeriod <= |closes|
    ensures var ks := KSeries(highs, lows, closes, kPeriod);
            forall j :: 0 <= j < |ks| && ks[j].Some? ==> 0.0 <= ks[j].value <= 100.0
  {
    var ks := KSeries(highs, lows, closes, kPeriod);
    forall j | 0 <= j < |ks| && ks[j].Some?
      ensures 0.0 <= ks[j].value <= 100.0
    {
      PercentKInRange(highs, lows, closes, kPeriod - 1 + j, kPeriod);
    }
  }

  /** On well-formed candles a %D that is a number lies in [0, 100]. */
  lemma PercentDInRange(highs: seq<real>, lows: seq<real>, closes: seq<real>, kPeriod: nat, dPeriod: nat)
    requires SameLength(highs, lows, closes) && WellFormed(highs, lows, closes)
    requires 0 < kPeriod <= |closes| && dPeriod > 0
    ensures var d := SmaOfK(KSeries(highs, lows, closes, kPeriod), dPeriod);
            d.Finite? ==> 0.0 <= d.v <= 100.0
  {
    var ks := KSeries(highs, lows, closes, kPeriod);
    if |ks| >= dPeriod {
      var w := ks[|ks| - dPeriod..];
      if AllDefined(w) {
        KSeriesInRange(highs, lows, closes, kPeriod);
        var vs := Defined(w);
        forall i | 0 <= i < |vs|
          ensures 0.0 <= vs[i] <= 100.0
        {
          assert vs[i] == ks[|ks| - dPeriod + i].value;
        }
        SumBounds(vs, 0.0, 100.0);
        MeanBounds(Sum(vs), dPeriod as real, 0.0, 100.0);
      }
    }
  }

  /** On well-formed candles both %K and %D, when they are numbers, lie in
      [0, 100]. */
  lemma StochasticInRange(highs: seq<real>, lows: seq<real>, closes: seq<real>, kPeriod: nat, dPeriod: nat)
    requires SameLength(highs, lows, closes) && WellFormed(highs, lows, closes)
    requires kPeriod > 0 && dPeriod > 0
    ensures var s := StochasticOf(highs, lows, closes, kPeriod, dPeriod);
            && (s.k.Finite? ==> 0.0 <= s.k.v <= 100.0)
            && (s.d.Finite? ==> 0.0 <= s.d.v <= 100.0)
  {
    if |closes| >= kPeriod {
      PercentKInRange(highs, lows, closes, |closes| - 1, kPeriod);
      PercentDInRange(highs, lows, closes, kPeriod, dPeriod);
    }
  }

  /** A sequence holding %K at every index from `kPeriod - 1` on is the %K
      series. */
  lemma KSeriesExtensional(highs: seq<real>, lows: seq<real>, closes: seq<real>, kPeriod: nat, ks: seq<Option<real>>)
    requires SameLength(highs, lows, closes)
    requires 0 < kPeriod <= |closes|
    requires |ks| == |closes| - kPeriod + 1
    requires forall j :: 0 <= j < |ks| ==> ks[j] == PercentK(highs, lows, closes, kPeriod - 1 + j, kPeriod)
    ensures ks == KSeries(highs, lows, closes, kPeriod)
  {
  }

  method CalculateStochastic(highs: seq<real>, lows: seq<real>, closes: seq<real>, kPeriod: nat, dPeriod: nat)
    returns (s: Stochastic)
    requires SameLength(highs, lows, closes)
    requires kPeriod > 0 && dPeriod > 0
    ensures s == StochasticOf(highs, lows, closes, kPeriod, dPeriod)
  {
    if |closes| < kPeriod {
      return Stochastic(Null, Null);
    }
    var k := PercentK(highs, lows, closes, |closes| - 1, kPeriod);
    var kValues: seq<Option<real>> := [];
    var i := kPeriod - 1;
    while i < |closes|
      invariant kPeriod - 1 <= i <= |closes|
      invariant |kValues| == i - (kPeriod - 1)
      invariant forall j :: 0 <= j < |kValues| ==> kValues[j] == PercentK(highs, lows, closes, kPeriod - 1 + j, kPeriod)
    {
      var ki := PercentK(highs, lows, closes, i, kPeriod);
      kValues := kValues + [ki];
      i := i + 1;
    }
    KSeriesExtensional(highs, lows, closes, kPeriod, kValues);
    return Stochastic(KValue(k), SmaOfK(kValues, dPeriod));
  }

  // ---------------------------------------------------------------------
  // Average true range (server/services/ai.js:190-202)

  function Abs(x: real): real {
    if x < 0.0 then -x else x
  }

  function Max3(a: real, b: real, c: real): (m: real)
    ensures m >= a && m >= b && m >= c
    ensures m == a || m == b || m == c
  {
    if a >= b && a >= c then a else if b >= c then b else c
  }

  /** The true range of candle `i`: at least its own high-low range and never
      negative. */
  function TrueRange(highs: seq<real>, lows: seq<real>, closes: seq<real>, i: nat): (tr: real)
    requires SameLength(highs, lows, closes)
    requires 1 <= i < |closes|
    ensures tr >= highs[i] - lows[i]
    ensures tr >= 0.0
  {
    Max3(highs[i] - lows[i], Abs(highs[i] - closes[i - 1]), Abs(lows[i] - closes[i - 1]))
  }

  function TrueRanges(highs: seq<real>, lows: seq<real>, closes: seq<real>): (trs: seq<real>)
    requires SameLength(highs, lows, closes)
    requires |closes| >= 1
    ensures |trs| == |closes| - 1
  {
    seq(|closes| - 1, j requires 0 <= j < |closes| - 1 => TrueRange(highs, lows, closes, j + 1))
  }

  /** ATR(period): `null` with fewer than `period + 1` closes, otherwise the
      SMA of the true ranges. */
  function Atr(highs: seq<real>, lows: seq<real>, closes: seq<real>, period: nat): (r: Option<real>)
    requires SameLength(highs, lows, closes)
    requires period > 0
    ensures r.None? <==> |closes| < period + 1
  {
    if |closes| < period + 1 then None
    else Sma(TrueRanges(highs, lows, closes), period)
  }

  /** The high-low ranges of the last `period` candles. */
  function LastRanges(highs: seq<real>, lows: seq<real>, period: nat): (r: seq<real>)
    requires |lows| == |highs| && period <= |highs|
    ensures |r| == period
  {
    var n := |highs|;
    seq(period, j requires 0 <= j < period => highs[n - period + j] - lows[n - period + j])
  }

  lemma DivMonotone(a: real, b: real, p: real)
    requires a <= b && p > 0.0
    ensures a / p <= b / p
  {
    assert a / p * p == a;
    assert b / p * p == b;
  }

  lemma WindowTrueRange(highs: seq<real>, lows: seq<real>, closes: seq<real>, period: nat, j: nat)
    requires SameLength(highs, lows, closes)
    requires j < period && period + 1 <= |closes|
    ensures var w := LastN(TrueRanges(highs, lows, closes), period);
            LastRanges(highs, lows, period)[j] <= w[j] && 0.0 <= w[j]
  {
    var n := |closes|;
    var trs := TrueRanges(highs, lows, closes);
    assert LastN(trs, period)[j] == trs[n - 1 - period + j] == TrueRange(highs, lows, closes, n - period + j);
  }

  /** A defined ATR is non-negative and at least the mean high-low range of
      the last `period` candles. */
  lemma AtrBounds(highs: seq<real>, lows: seq<real>, closes: seq<real>, period: nat)
    requires SameLength(highs, lows, closes)
    requires 0 < period && period + 1 <= |closes|
    ensures Atr(highs, lows, closes, period).value >= 0.0
    ensures Atr(highs, lows, closes, period).value >= Sum(LastRanges(highs, lows, period)) / period as real
  {
    var n := |closes|;
    var trs := TrueRanges(highs, lows, closes);
    var w := LastN(trs, period);
    var ranges := LastRanges(highs, lows, period);
    forall j | 0 <= j < period
      ensures ranges[j] <= w[j] && 0.0 <= w[j]
    {
      WindowTrueRange(highs, lows, closes, period, j);
    }
    assert Atr(highs, lows, closes, period).value == Sum(w) / period as real;
    SumMonotone(ranges, w);
    SumNonNegative(w);
    DivMonotone(0.0, Sum(w), period as real);
    DivMonotone(Sum(ranges), Sum(w), period as real);
  }

  method CalculateAtr(highs: seq<real>, lows: seq<real>, closes: seq<real>, period: nat) returns (r: Option<real>)
    requires SameLength(highs, lows, closes)
    requires period > 0
    ensures r == Atr(highs, lows, closes, period)
  {
    if |closes| < period + 1 {
      return None;
    }
    var trueRanges: seq<real> := [];
    var i := 1;
    while i < |closes|
      invariant 1 <= i <= |closes|
      invariant trueRanges == TrueRanges(highs, lows, closes)[..i - 1]
    {
      var tr1 := highs[i] - lows[i];
      var tr2 := Abs(highs[i] - closes[i - 1]);
      var tr3 := Abs(lows[i] - closes[i - 1]);
      trueRanges := trueRanges + [Max3(tr1, tr2, tr3)];
      i := i + 1;
    }
    assert trueRanges == TrueRanges(highs, lows, closes);
    return Sma(trueRanges, period);
  }

  // ---------------------------------------------------------------------
  // The indicator record (server/services/ai.js:32-74)

  const MinKlines: nat := 50

  /** The indicator object. A field the service never assigned is
      `Undefined`, which differs from a field it assigned `null`. */
  datatype IndicatorSet = IndicatorSet(
    sma20: Num, sma50: Num, ema12: Num, ema26: Num,
    macd: Num, macdSignal: Num, rsi: Num,
    bollingerUpper: Num, bollingerLower: Num,
    stochasticK: Num, stochasticD: Num, atr: Num)

  /** The empty object `{}`: every field reads as undefined. */
  const NoIndicators := IndicatorSet(
    Undefined, Undefined, Undefined, Undefined, Undefined, Undefined,
    Undefined, Undefined, Undefined, Undefined, Undefined, Undefined)

  function TechnicalIndicators(klines: seq<Candle>, sqrt: real -> real): (ind: IndicatorSet)
    ensures |klines| < MinKlines <==> ind == NoIndicators
  {
    if |klines| < MinKlines then NoIndicators
    else
      var closes, highs, lows := Closes(klines), Highs(klines), Lows(klines);
      var macd := MacdOf(closes);
      var bands := Bollinger(closes, 20, 2.0, sqrt);
      var stochastic := StochasticOf(highs, lows, closes, 14, 3);
      IndicatorSet(
        FromOption(Sma(closes, 20)), FromOption(Sma(closes, 50)),
        FromOption(Ema(closes, 12)), FromOption(Ema(closes, 26)),
        macd.macd, macd.signal, Rsi(closes, 14),
        bands.upper, bands.lower,
        stochastic.k, stochastic.d,
        FromOption(Atr(highs, lows, closes, 14)))
  }

  /** With at least 50 klines every field is assigned: the averages, bands
      and ATR are numbers, the RSI is never `null`, and MACD and its signal
      are numbers exactly when both EMAs are non-zero. */
  lemma FullHistoryAssignsEveryField(klines: seq<Candle>, sqrt: real -> real)
    requires |klines| >= MinKlines
    ensures var ind := TechnicalIndicators(klines, sqrt);
            && ind.sma20.Finite? && ind.sma50.Finite? && ind.ema12.Finite? && ind.ema26.Finite?
            && ind.bollingerUpper.Finite? && ind.bollingerLower.Finite? && ind.atr.Finite?
            && ind.rsi != Null && ind.rsi != Undefined
            && ind.stochasticK != Null && ind.stochasticK != Undefined
            && ind.stochasticD != Null && ind.stochasticD != Undefined
            && (ind.macd.Finite? <==> ind.ema12.v != 0.0 && ind.ema26.v != 0.0)
            && (ind.macd.Finite? ==> ind.macdSignal.Finite?)
            && (!ind.macd.Finite? ==> ind.macd == Null && ind.macdSignal == Null)
  {
    var closes := Closes(klines);
    if MacdOf(closes).macd != Null {
      MacdIsLastOfLine(closes);
    }
  }

  method CalculateTechnicalIndicators(klines: seq<Candle>, sqrt: real -> real) returns (ind: IndicatorSet)
    ensures ind == TechnicalIndicators(klines, sqrt)
  {
    if |klines| < MinKlines {
      return NoIndicators;
    }
    var closes, highs, lows := Closes(klines), Highs(klines), Lows(klines);
    var sma20, sma50 := Sma(closes, 20), Sma(closes, 50);
    var ema12 := CalculateEma(closes, 12);
    var ema26 := CalculateEma(closes, 26);
    var macd := CalculateMacd(closes);
    var rsi := CalculateRsi(closes, 14);
    var bands := Bollinger(closes, 20, 2.0, sqrt);
    var stochastic := CalculateStochastic(highs, lows, closes, 14, 3);
    var atr := CalculateAtr(highs, lows, closes, 14);
    ind := IndicatorSet(
      FromOption(sma20), FromOption(sma50), FromOption(ema12), FromOption(ema26),
      macd.macd, macd.signal, rsi, bands.upper, bands.lower,
      stochastic.k, stochastic.d, FromOption(atr));
  }
}
