/**
 * The signal processor: Wilder-smoothed RSI, EMA and ATR over candle series, the
 * confidence score of a signal, the trend check of an open signal (changed, reinforced,
 * new targets) and the volume-breakout continuation signal.
 */
module SignalProcessor {
  import opened Wrappers
  import opened Candles
  import opened Indicators
  import opened Constants

  // ---------------------------------------------------------------------------
  // RSI with Wilder smoothing

  /** Wilder's smoothing from `seed` over xs, left to right: avg := (avg * 13 + x) / 14. */
  function Smoothed(seed: real, xs: seq<real>): real {
    if xs == [] then seed else (Smoothed(seed, xs[..|xs| - 1]) * 13.0 + xs[|xs| - 1]) / 14.0
  }

  /** Smoothing non-negative values from a non-negative seed stays non-negative, and is zero exactly when all of them are. */
  lemma {:induction false} SmoothedNonNegative(seed: real, xs: seq<real>)
    requires seed >= 0.0 && forall i :: 0 <= i < |xs| ==> xs[i] >= 0.0
    ensures Smoothed(seed, xs) >= 0.0
    ensures Smoothed(seed, xs) == 0.0 <==> seed == 0.0 && forall i :: 0 <= i < |xs| ==> xs[i] == 0.0
  {
    if xs != [] {
      var p := xs[..|xs| - 1];
      assert forall i :: 0 <= i < |p| ==> p[i] == xs[i];
      SmoothedNonNegative(seed, p);
    }
  }

  lemma {:induction false} SmoothedStep(seed: real, xs: seq<real>, i: nat)
    requires i < |xs|
    ensures Smoothed(seed, xs[..i + 1]) == (Smoothed(seed, xs[..i]) * 13.0 + xs[i]) / 14.0
  {
    assert xs[..i + 1][..i] == xs[..i];
  }

  /** The mean of the first `period` values, the seed of the smoothed averages. */
  function SeedMean(xs: seq<real>, period: nat): real
    requires 0 < period <= |xs|
  {
    Sum(xs[..period]) / period as real
  }

  /** The average gain: the mean of the first `period` gains, then smoothed over the rest. */
  function WilderGain(closes: seq<real>, period: nat): real
    requires 0 < period < |closes|
  {
    var gs := Gains(Diffs(closes));
    Smoothed(SeedMean(gs, period), gs[period..])
  }

  /** The average loss: the mean of the first `period` losses, then smoothed over the rest. */
  function WilderLoss(closes: seq<real>, period: nat): real
    requires 0 < period < |closes|
  {
    var ls := Losses(Diffs(closes));
    Smoothed(SeedMean(ls, period), ls[period..])
  }

  /**
   * Seeding with the mean of the first `period` values and smoothing over the rest gives a
   * non-negative average for non-negative values, zero exactly when all of them are zero.
   */
  lemma {:induction false} SeededAverage(xs: seq<real>, period: nat)
    requires 0 < period <= |xs|
    requires forall i :: 0 <= i < |xs| ==> xs[i] >= 0.0
    ensures Smoothed(SeedMean(xs, period), xs[period..]) >= 0.0
    ensures Smoothed(SeedMean(xs, period), xs[period..]) == 0.0 <==> forall i :: 0 <= i < |xs| ==> xs[i] == 0.0
  {
    var x0, x1 := xs[..period], xs[period..];
    assert forall i :: 0 <= i < |x0| ==> x0[i] == xs[i];
    assert forall i :: 0 <= i < |x1| ==> x1[i] == xs[period + i];
    SumNonNegative(x0);
    DivNonNegative(Sum(x0), period as real);
    SmoothedNonNegative(Sum(x0) / period as real, x1);
    if forall i :: 0 <= i < |x0| ==> x0[i] == 0.0 {
      if forall i :: 0 <= i < |x1| ==> x1[i] == 0.0 {
        forall i | 0 <= i < |xs| ensures xs[i] == 0.0 {
          if i >= period {
            assert xs[i] == x1[i - period];
          }
        }
      }
    }
  }

  /** No loss among the moves exactly when no close falls below its predecessor. */
  lemma {:induction false} NoLossIffNoFall(closes: seq<real>)
    ensures (forall j :: 0 <= j < |Losses(Diffs(closes))| ==> Losses(Diffs(closes))[j] == 0.0) <==>
      forall i :: 0 <= i < |closes| - 1 ==> closes[i] <= closes[i + 1]
  {
    var ls := Losses(Diffs(closes));
    assert forall j :: 0 <= j < |ls| ==> ls[j] == Loss(closes[j + 1] - closes[j]);
  }

  /** Both averages are non-negative; the loss average is zero exactly when no close falls below its predecessor. */
  lemma {:induction false} WilderAverages(closes: seq<real>, period: nat)
    requires 0 < period < |closes|
    ensures WilderGain(closes, period) >= 0.0
    ensures WilderLoss(closes, period) >= 0.0
    ensures WilderLoss(closes, period) == 0.0 <==> forall i :: 0 <= i < |closes| - 1 ==> closes[i] <= closes[i + 1]
  {
    var ds := Diffs(closes);
    SeededAverage(Gains(ds), period);
    SeededAverage(Losses(ds), period);
    NoLossIffNoFall(closes);
  }

  /**
   * RSI with Wilder smoothing: 50 with fewer than period + 1 closes (and for period 0,
   * whose division by zero is caught), otherwise computed from the smoothed averages.
   */
  function WilderRsi(closes: seq<real>, period: nat): (r: real)
    ensures period == 0 || |closes| < period + 1 ==> r == 50.0
    ensures 0.0 <= r <= 100.0
  {
    if period == 0 || |closes| < period + 1 then 50.0
    else
      WilderAverages(closes, period);
      RsiFromAverages(WilderGain(closes, period), WilderLoss(closes, period))
  }

  lemma {:induction false} WilderRsiOfAverages(closes: seq<real>, period: nat, avgGain: real, avgLoss: real)
    requires 0 < period < |closes|
    requires avgGain == WilderGain(closes, period) && avgLoss == WilderLoss(closes, period)
    ensures avgGain >= 0.0 && avgLoss >= 0.0
    ensures WilderRsi(closes, period) == if avgLoss == 0.0 then 100.0 else RsiFromAverages(avgGain, avgLoss)
  {
    WilderAverages(closes, period);
  }

  /** With enough closes the smoothed RSI is 100 exactly when no close falls below its predecessor. */
  lemma {:induction false} WilderRsiHundredIffNoFall(closes: seq<real>, period: nat)
    requires 0 < period < |closes|
    ensures WilderRsi(closes, period) == 100.0 <==> forall i :: 0 <= i < |closes| - 1 ==> closes[i] <= closes[i + 1]
  {
    WilderAverages(closes, period);
  }

  /**
   * With exactly period + 1 closes there is nothing to smooth, and the Wilder RSI agrees
   * with the simple RSI of the indicator module.
   */
  lemma {:induction false} WilderRsiMatchesSimpleAtSeed(closes: seq<real>, period: nat)
    requires period > 0 && |closes| == period + 1
    ensures WilderRsi(closes, period) == SimpleRsi(closes, period)
  {
    var ds := Diffs(closes);
    assert Gains(ds)[..period] == Gains(ds) == TailN(Gains(ds), period);
    assert Losses(ds)[..period] == Losses(ds) == TailN(Losses(ds), period);
    assert Gains(ds)[period..] == [];
    assert Losses(ds)[period..] == [];
  }

  /** The smoothing loop of `calculate_rsi`: both averages updated once per move after the seed window. */
  method SmoothAverages(gains: seq<real>, losses: seq<real>, period: nat, g0: real, l0: real)
    returns (avgGain: real, avgLoss: real)
    requires period <= |gains| == |losses|
    ensures avgGain == Smoothed(g0, gains[period..]) && avgLoss == Smoothed(l0, losses[period..])
  {
    avgGain, avgLoss := g0, l0;
    ghost var gRest, lRest := gains[period..], losses[period..];
    var i := period;
    while i < |gains|
      invariant period <= i <= |gains|
      invariant avgGain == Smoothed(g0, gRest[..i - period])
      invariant avgLoss == Smoothed(l0, lRest[..i - period])
    {
      SmoothedStep(g0, gRest, i - period);
      SmoothedStep(l0, lRest, i - period);
      avgGain := (avgGain * 13.0 + gains[i]) / 14.0;
      avgLoss := (avgLoss * 13.0 + losses[i]) / 14.0;
      i := i + 1;
    }
    assert gRest[..i - period] == gRest && lRest[..i - period] == lRest;
  }

  /** `_calculate_rsi`: the seed means, then the smoothing loop over the remaining moves. */
  method CalculateRsi(closes: seq<real>, period: nat) returns (rsi: real)
    ensures rsi == WilderRsi(closes, period)
  {
    if |closes| < period + 1 || period == 0 {
      return 50.0;
    }
    var deltas := Diffs(closes);
    var gains := Gains(deltas);
    var losses := Losses(deltas);
    var avgGain, avgLoss := SmoothAverages(gains, losses, period, SeedMean(gains, period), SeedMean(losses, period));
    WilderRsiOfAverages(closes, period, avgGain, avgLoss);
    if avgLoss == 0.0 {
      return 100.0;
    }
    rsi := RsiFromAverages(avgGain, avgLoss);
  }

  // ---------------------------------------------------------------------------
  // EMA

  /** One EMA update: the average moves the fraction m of the way towards the new price. */
  function EmaStep(ema: real, price: real, m: real): real {
    (price - ema) * m + ema
  }

  /** A step with 0 <= m <= 1 stays between the previous average and the price. */
  lemma {:induction false} EmaStepBetween(ema: real, price: real, m: real, lo: real, hi: real)
    requires lo <= ema <= hi && lo <= price <= hi && 0.0 <= m <= 1.0
    ensures lo <= EmaStep(ema, price, m) <= hi
  {
    var d := price - ema;
    assert EmaStep(ema, price, m) == d * m + ema;
    if d >= 0.0 {
      FractionOf(d, m);
    } else {
      FractionOf(-d, m);
      assert d * m == -((-d) * m);
    }
  }

  /** A fraction between 0 and 1 of a non-negative amount lies between 0 and the amount. */
  lemma {:induction false} FractionOf(v: real, m: real)
    requires v >= 0.0 && 0.0 <= m <= 1.0
    ensures 0.0 <= v * m <= v
  {
    assert v - v * m == v * (1.0 - m);
  }

  /** The EMA after seeding with `seed` and stepping through xs left to right. */
  function EmaFrom(seed: real, m: real, xs: seq<real>): real {
    if xs == [] then seed else EmaStep(EmaFrom(seed, m, xs[..|xs| - 1]), xs[|xs| - 1], m)
  }

  lemma {:induction false} EmaFromBetween(seed: real, m: real, xs: seq<real>, lo: real, hi: real)
    requires lo <= seed <= hi && 0.0 <= m <= 1.0
    requires forall i :: 0 <= i < |xs| ==> lo <= xs[i] <= hi
    ensures lo <= EmaFrom(seed, m, xs) <= hi
  {
    if xs != [] {
      var p := xs[..|xs| - 1];
      assert forall i :: 0 <= i < |p| ==> p[i] == xs[i];
      EmaFromBetween(seed, m, p, lo, hi);
      EmaStepBetween(EmaFrom(seed, m, p), xs[|xs| - 1], m, lo, hi);
    }
  }

  lemma {:induction false} EmaFromStep(seed: real, m: real, xs: seq<real>, i: nat)
    requires i < |xs|
    ensures EmaFrom(seed, m, xs[..i + 1]) == EmaStep(EmaFrom(seed, m, xs[..i]), xs[i], m)
  {
    assert xs[..i + 1][..i] == xs[..i];
  }

  /** The smoothing multiplier 2 / (period + 1). */
  function Multiplier(period: nat): (m: real)
    requires period > 0
    ensures 0.0 < m <= 1.0
  {
    assert 2.0 / (period as real + 1.0) * (period as real + 1.0) == 2.0;
    2.0 / (period as real + 1.0)
  }

  /**
   * Exponential moving average: the last value when there are fewer than `period` values
   * (and for period 0, whose division by zero is caught); otherwise seeded with the mean of
   * the first `period` values and stepped through the rest. It stays within the range of the data.
   */
  function Ema(data: seq<real>, period: nat): (r: real)
    requires |data| > 0
    ensures |data| < period || period == 0 ==> r == data[|data| - 1]
    ensures MinOf(data) <= r <= MaxOf(data)
  {
    if |data| < period || period == 0 then data[|data| - 1]
    else
      var lo, hi := MinOf(data), MaxOf(data);
      var head, rest := data[..period], data[period..];
      assert forall i :: 0 <= i < |head| ==> head[i] == data[i];
      assert forall i :: 0 <= i < |rest| ==> rest[i] == data[period + i];
      MeanBetween(head, lo, hi);
      EmaFromBetween(Sum(head) / period as real, Multiplier(period), rest, lo, hi);
      EmaFrom(Sum(head) / period as real, Multiplier(period), rest)
  }

  /** A constant series has that constant as its EMA. */
  lemma {:induction false} EmaOfConstant(data: seq<real>, period: nat, c: real)
    requires |data| > 0 && forall i :: 0 <= i < |data| ==> data[i] == c
    ensures Ema(data, period) == c
  {
    var lo, hi := MinOf(data), MaxOf(data);
    assert lo == c && hi == c;
  }

  /** `_calculate_ema`: the seed mean, then one update per remaining price. */
  method CalculateEma(data: seq<real>, period: nat) returns (ema: real)
    requires |data| > 0
    ensures ema == Ema(data, period)
  {
    if |data| < period || period == 0 {
      return data[|data| - 1];
    }
    var multiplier := 2.0 / (period as real + 1.0);
    ema := Sum(data[..period]) / period as real;
    ghost var seed, rest := ema, data[period..];
    var i := period;
    while i < |data|
      invariant period <= i <= |data|
      invariant ema == EmaFrom(seed, multiplier, rest[..i - period])
    {
      EmaFromStep(seed, multiplier, rest, i - period);
      ema := (data[i] - ema) * multiplier + ema;
      i := i + 1;
    }
    assert rest[..i - period] == rest;
  }

  // ---------------------------------------------------------------------------
  // ATR

  function Max3(a: real, b: real, c: real): (m: real)
    ensures m >= a && m >= b && m >= c
  {
    if a >= b && a >= c then a else if b >= c then b else c
  }

  /** The true range of candle k after a candle closing at prevClose. */
  function TrueRange(prevClose: real, k: Candle): (tr: real)
    ensures tr >= 0.0
  {
    Max3(k.high - k.low, Abs(k.high - prevClose), Abs(k.low - prevClose))
  }

  /** A true range is zero exactly when the candle is flat at the previous close. */
  lemma {:induction false} TrueRangeZero(prevClose: real, k: Candle)
    ensures TrueRange(prevClose, k) == 0.0 <==> k.high == prevClose && k.low == prevClose
  {
  }

  /** The true range of every candle after the first. */
  function TrueRanges(ks: seq<Candle>): (trs: seq<real>)
    ensures |trs| == if |ks| == 0 then 0 else |ks| - 1
    ensures forall i :: 0 <= i < |trs| ==> trs[i] == TrueRange(ks[i].close, ks[i + 1])
  {
    if |ks| <= 1 then [] else seq(|ks| - 1, i requires 0 <= i < |ks| - 1 => TrueRange(ks[i].close, ks[i + 1]))
  }

  /**
   * Average true range: the mean of the last `period` true ranges; 0 with fewer than
   * period + 1 candles (and for period 0, whose division by zero is caught).
   */
  function Atr(ks: seq<Candle>, period: nat): (r: real)
    ensures period == 0 || |ks| < period + 1 ==> r == 0.0
    ensures r >= 0.0
  {
    if period == 0 || |ks| < period + 1 then 0.0
    else
      TailNonNegative(TrueRanges(ks), period);
      DivNonNegative(Sum(TailN(TrueRanges(ks), period)), period as real);
      Sum(TailN(TrueRanges(ks), period)) / period as real
  }

  /**
   * With enough candles the ATR is zero exactly when each of the last `period` candles is
   * flat at the previous close.
   */
  lemma {:induction false} AtrZeroIffFlat(ks: seq<Candle>, period: nat)
    requires 0 < period < |ks|
    ensures Atr(ks, period) == 0.0 <==>
      forall i :: |ks| - period <= i < |ks| ==> ks[i].high == ks[i - 1].close && ks[i].low == ks[i - 1].close
  {
    var trs := TrueRanges(ks);
    var lo := |ks| - 1 - period;
    var t := trs[lo..];
    TailNIsSuffix(trs, period);
    TailNonNegative(trs, period);
    assert forall j :: 0 <= j < |t| ==> t[j] >= 0.0;
    SumNonNegative(t);
    DivNonNegative(Sum(t), period as real);
    assert Atr(ks, period) == 0.0 <==> forall j :: 0 <= j < |t| ==> t[j] == 0.0;
    forall i | |ks| - period <= i < |ks|
      ensures t[i - 1 - lo] == 0.0 <==> ks[i].high == ks[i - 1].close && ks[i].low == ks[i - 1].close
    {
      assert t[i - 1 - lo] == trs[i - 1];
      TrueRangeZero(ks[i - 1].close, ks[i]);
    }
    if !(forall j :: 0 <= j < |t| ==> t[j] == 0.0) {
      var j :| 0 <= j < |t| && t[j] != 0.0;
      assert t[(j + lo + 1) - 1 - lo] != 0.0;
    }
  }

  /** `_calculate_atr`: the loop collecting true ranges, then the mean of the last `period`. */
  method CalculateAtr(ks: seq<Candle>, period: nat) returns (atr: real)
    ensures atr == Atr(ks, period)
  {
    if |ks| < period + 1 || period == 0 {
      return 0.0;
    }
    var trueRanges: seq<real> := [];
    var i := 1;
    while i < |ks|
      invariant 1 <= i <= |ks|
      invariant |trueRanges| == i - 1
      invariant forall j :: 0 <= j < i - 1 ==> trueRanges[j] == TrueRange(ks[j].close, ks[j + 1])
    {
      var high, low, prevClose := ks[i].high, ks[i].low, ks[i - 1].close;
      var tr1, tr2, tr3 := high - low, Abs(high - prevClose), Abs(low - prevClose);
      trueRanges := trueRanges + [Max3(tr1, tr2, tr3)];
      i := i + 1;
    }
    assert trueRanges == TrueRanges(ks);
    atr := Sum(TailN(trueRanges, period)) / period as real;
  }

  // ---------------------------------------------------------------------------
  // Confidence of a signal

  function Min(a: real, b: real): real {
    if a <= b then a else b
  }

  function Max(a: real, b: real): real {
    if a >= b then a else b
  }

  /** The mean volume of the 19 candles before the last one (`klines[-20:-1]`). */
  function PrecedingVolumeMean(ks: seq<Candle>): real
    requires |ks| >= 20
  {
    Sum(Volumes(ks)[|ks| - 20..|ks| - 1]) / 19.0
  }

  /** RSI part: how far a LONG's RSI is below 30, or a SHORT's above 70, in points; 0 otherwise. */
  function RsiScore(side: Direction, rsi: real): (s: real)
    requires 0.0 <= rsi <= 100.0
    ensures 0.0 <= s <= 30.0
    ensures s > 0.0 <==> (side == Long && rsi < 30.0) || (side == Short && rsi > 70.0)
  {
    assert (30.0 - rsi) / 30.0 * 30.0 == 30.0 - rsi;
    assert (rsi - 70.0) / 30.0 * 30.0 == rsi - 70.0;
    match side
    case Long => if rsi <= 30.0 then (30.0 - rsi) / 30.0 * 30.0 else 0.0
    case Short => if rsi >= 70.0 then (rsi - 70.0) / 30.0 * 30.0 else 0.0
  }

  /** Volume part: 30 points per unit of volume ratio above 1, capped at 30 and never negative. */
  function VolumeScore(ratio: real): (s: real)
    ensures 0.0 <= s <= 30.0
    ensures s == 0.0 <==> ratio <= 1.0
  {
    Max(Min((ratio - 1.0) * 30.0, 30.0), 0.0)
  }

  /**
   * Price-action part: 20 points when the last candle rises and closes above the high of a
   * falling previous candle (LONG), or falls and closes below the low of a rising one (SHORT).
   */
  function PatternScore(side: Direction, current: Candle, prev: Candle): (s: real)
    ensures s == 0.0 || s == 20.0
  {
    if side == Long then
      if current.close > current.open && current.close > prev.high && prev.close < prev.open then 20.0 else 0.0
    else
      if current.close < current.open && current.close < prev.low && prev.close > prev.open then 20.0 else 0.0
  }

  /** Risk/reward part: ten points per unit of |tp - entry| / |entry - sl|, capped at 20. */
  function RrScore(entry: real, tp: real, sl: real): (s: real)
    requires entry != sl
    ensures 0.0 <= s <= 20.0
  {
    Min(Abs((tp - entry) / (entry - sl)) * 10.0, 20.0)
  }

  /**
   * The confidence score of a signal before rounding: the four parts added up, each only
   * when there are candles enough for it; 0 when a division fails (zero mean volume of the
   * preceding candles, or a stop loss at the entry). A missing RSI counts as 50.
   */
  function Confidence(side: Direction, rsi: Option<real>, ks: seq<Candle>, entry: real, tp: real, sl: real): (c: real)
    requires 0.0 <= rsi.GetOr(50.0) <= 100.0
    ensures 0.0 <= c <= 100.0
    ensures (|ks| >= 20 && PrecedingVolumeMean(ks) == 0.0) || entry == sl ==> c == 0.0
  {
    if (|ks| >= 20 && PrecedingVolumeMean(ks) == 0.0) || entry == sl then 0.0
    else
      RsiScore(side, rsi.GetOr(50.0))
      + (if |ks| >= 20 then VolumeScore(ks[|ks| - 1].volume / PrecedingVolumeMean(ks)) else 0.0)
      + (if |ks| >= 3 then PatternScore(side, ks[|ks| - 1], ks[|ks| - 2]) else 0.0)
      + RrScore(entry, tp, sl)
  }

  /**
   * With a neutral RSI, too few candles for the volume and pattern parts, the score is the
   * risk/reward part alone: 10 points for a 1:1 signal.
   */
  lemma {:induction false} ConfidenceOfNeutralSignal(side: Direction, ks: seq<Candle>, entry: real, d: real)
    requires |ks| < 3 && d != 0.0
    ensures Confidence(side, None, ks, entry, entry + d, entry - d) == 10.0
  {
    assert (entry + d - entry) / (entry - (entry - d)) == 1.0;
  }

  /** `calculate_confidence`: the score accumulated part by part; 0 where the source's division fails. */
  method CalculateConfidence(side: Direction, rsi: Option<real>, ks: seq<Candle>, entry: real, tp: real, sl: real)
    returns (confidence: real)
    requires 0.0 <= rsi.GetOr(50.0) <= 100.0
    ensures confidence == Confidence(side, rsi, ks, entry, tp, sl)
  {
    confidence := 0.0;
    var r := rsi.GetOr(50.0);
    var rsiScore: real;
    if side == Long {
      rsiScore := if r <= 30.0 then (30.0 - r) / 30.0 * 30.0 else 0.0;
    } else {
      rsiScore := if r >= 70.0 then (r - 70.0) / 30.0 * 30.0 else 0.0;
    }
    confidence := confidence + rsiScore;
    if |ks| >= 20 {
      var currentVolume := ks[|ks| - 1].volume;
      var avgVolume := Sum(Volumes(ks)[|ks| - 20..|ks| - 1]) / 19.0;
      if avgVolume == 0.0 {
        return 0.0;
      }
      var volumeRatio := currentVolume / avgVolume;
      var volumeScore := Min((volumeRatio - 1.0) * 30.0, 30.0);
      confidence := confidence + Max(volumeScore, 0.0);
    }
    if |ks| >= 3 {
      var current, prev1 := ks[|ks| - 1], ks[|ks| - 2];
      if side == Long {
        if current.close > current.open && current.close > prev1.high && prev1.close < prev1.open {
          confidence := confidence + 20.0;
        }
      } else {
        if current.close < current.open && current.close < prev1.low && prev1.close > prev1.open {
          confidence := confidence + 20.0;
        }
      }
    }
    if entry == sl {
      return 0.0;
    }
    var rr := Abs((tp - entry) / (entry - sl));
    confidence := confidence + Min(rr * 10.0, 20.0);
  }

  // ---------------------------------------------------------------------------
  // Trend check of an open signal

  /** New take-profit and stop-loss levels. */
  datatype Targets = Targets(tp: real, sl: real)

  /** The trend-analysis result: changed, reinforced, and the new targets of a reinforced trend. */
  datatype TrendCheck = TrendCheck(changed: bool, reinforced: bool, newTargets: Option<Targets>)

  const NoTrendChange := TrendCheck(false, false, None)

  /**
   * The decision on the indicator values: a LONG's trend has changed when the RSI is
   * overbought or price is under a falling EMA20; it is reinforced when the RSI is below 40,
   * EMA20 is above EMA50 and price is above the entry. SHORT mirrors this. A reinforced
   * trend gets a stop two ATRs away and a target MinRrRatio times farther on the other side.
   */
  function TrendDecision(side: Direction, entry: real, price: real, rsi: real, ema20: real, ema50: real, atr: real): (r: TrendCheck)
    ensures !(r.changed && r.reinforced)
    ensures r.newTargets.Some? <==> r.reinforced
  {
    var changed := if side == Long then rsi >= RsiOverbought || (ema20 < ema50 && price < ema20)
                   else rsi <= RsiOversold || (ema20 > ema50 && price > ema20);
    if changed then TrendCheck(true, false, None)
    else
      var reinforced := if side == Long then rsi < 40.0 && ema20 > ema50 && price > entry
                        else rsi > 60.0 && ema20 < ema50 && price < entry;
      if !reinforced then NoTrendChange
      else TrendCheck(false, true, Some(NewTargets(side, price, atr)))
  }

  /** The stop two ATRs from price against the trade, the target MinRrRatio times as far in its favour. */
  function NewTargets(side: Direction, price: real, atr: real): Targets {
    if side == Long then Targets(price + atr * 2.0 * MinRrRatio, price - atr * 2.0)
    else Targets(price - atr * 2.0 * MinRrRatio, price + atr * 2.0)
  }

  /**
   * New targets bracket the current price on the signal's side when the ATR is positive,
   * and the reward is MinRrRatio times the risk.
   */
  lemma {:induction false} NewTargetsOrdered(side: Direction, entry: real, price: real, rsi: real, ema20: real, ema50: real, atr: real)
    requires atr > 0.0
    requires TrendDecision(side, entry, price, rsi, ema20, ema50, atr).reinforced
    ensures var t := TrendDecision(side, entry, price, rsi, ema20, ema50, atr).newTargets.value;
      && (side == Long ==> t.sl < price < t.tp)
      && (side == Short ==> t.tp < price < t.sl)
      && Abs(t.tp - price) == MinRrRatio * Abs(price - t.sl)
  {
  }

  /**
   * The change check never masks a reinforcement: a LONG's trend is reinforced exactly when
   * the RSI is below 40, EMA20 is above EMA50 and price is above the entry.
   */
  lemma {:induction false} ReinforcedLongMeansProgress(entry: real, price: real, rsi: real, ema20: real, ema50: real, atr: real)
    ensures TrendDecision(Long, entry, price, rsi, ema20, ema50, atr).reinforced <==>
      rsi < 40.0 && ema20 > ema50 && price > entry
  {
  }

  /**
   * `analyze_trend`: fewer than 50 candles report nothing; otherwise the Wilder RSI(14),
   * EMA20 and EMA50 of the closes and the ATR(14) of the candles decide. A changed trend
   * returns at once, before any reinforcement or targets are looked at.
   */
  method AnalyzeTrend(side: Direction, entry: real, ks: seq<Candle>) returns (result: TrendCheck)
    ensures |ks| < 50 ==> result == NoTrendChange
    ensures |ks| >= 50 ==>
      result == TrendDecision(side, entry, ks[|ks| - 1].close, WilderRsi(Closes(ks), RsiPeriod),
                              Ema(Closes(ks), 20), Ema(Closes(ks), 50), Atr(ks, 14))
  {
    if |ks| < 50 {
      return NoTrendChange;
    }
    var currentPrice := ks[|ks| - 1].close;
    var closes := Closes(ks);
    var rsi := CalculateRsi(closes, RsiPeriod);
    var ema20 := CalculateEma(closes, 20);
    var ema50 := CalculateEma(closes, 50);
    ghost var decided := TrendDecision(side, entry, currentPrice, rsi, ema20, ema50, Atr(ks, 14));
    result := TrendCheck(false, false, None);
    if side == Long {
      if rsi >= RsiOverbought || (ema20 < ema50 && currentPrice < ema20) {
        result := result.(changed := true);
        return;
      }
    } else {
      if rsi <= RsiOversold || (ema20 > ema50 && currentPrice > ema20) {
        result := result.(changed := true);
        return;
      }
    }
    if side == Long {
      if rsi < 40.0 && ema20 > ema50 && currentPrice > entry {
        result := result.(reinforced := true);
      }
    } else {
      if rsi > 60.0 && ema20 < ema50 && currentPrice < entry {
        result := result.(reinforced := true);
      }
    }
    if result.reinforced {
      var atr := CalculateAtr(ks, 14);
      result := result.(newTargets := Some(NewTargets(side, currentPrice, atr)));
    }
  }

  // ---------------------------------------------------------------------------
  // Volume breakout continuation

  /** Percentage change of a candle from open to close; None when the open is zero (the division fails). */
  function PriceChange(k: Candle): Option<real> {
    if k.open == 0.0 then None else Some((k.close - k.open) / k.open * 100.0)
  }

  /**
   * `check_volume_signal`: with at least 20 candles and the last volume at least
   * VolumeRatioMin times the mean of the 19 before it, two rising candles with a higher
   * close give LONG and two falling candles with a lower close give SHORT. Too few candles,
   * no breakout, no continuation or a failing division give None.
   */
  function CheckVolumeSignal(ks: seq<Candle>): (r: Option<Direction>)
    ensures |ks| < 20 ==> r == None
    ensures r.Some? ==>
      |ks| >= 20 && PrecedingVolumeMean(ks) != 0.0 && ks[|ks| - 1].volume / PrecedingVolumeMean(ks) >= VolumeRatioMin
  {
    if |ks| < 20 then None
    else
      var current, prev := ks[|ks| - 1], ks[|ks| - 2];
      var volumeMa := PrecedingVolumeMean(ks);
      if volumeMa == 0.0 then None
      else if current.volume / volumeMa < VolumeRatioMin then None
      else
        match (PriceChange(current), PriceChange(prev))
        case (Some(pc), Some(pp)) =>
          if pc > 0.0 && pp > 0.0 && current.close > prev.close then Some(Long)
          else if pc < 0.0 && pp < 0.0 && current.close < prev.close then Some(Short)
          else None
        case _ => None
  }

  /** For positive opens, a positive percentage change means the candle closed above its open. */
  lemma {:induction false} PriceChangeSign(k: Candle)
    requires k.open > 0.0
    ensures PriceChange(k).Some?
    ensures PriceChange(k).value > 0.0 <==> k.close > k.open
    ensures PriceChange(k).value < 0.0 <==> k.close < k.open
  {
    var q := (k.close - k.open) / k.open;
    assert q * k.open == k.close - k.open;
  }

  /**
   * On candles with positive opens and a positive mean volume, LONG is signalled exactly on
   * a volume breakout where both candles rise and the last closes higher, and SHORT exactly
   * on one where both fall and the last closes lower.
   */
  lemma {:induction false} VolumeSignalIff(ks: seq<Candle>)
    requires |ks| >= 20 && PrecedingVolumeMean(ks) > 0.0
    requires ks[|ks| - 1].open > 0.0 && ks[|ks| - 2].open > 0.0
    ensures var cur, prev := ks[|ks| - 1], ks[|ks| - 2];
      var breakout := cur.volume / PrecedingVolumeMean(ks) >= VolumeRatioMin;
      && (CheckVolumeSignal(ks) == Some(Long) <==>
            breakout && cur.close > cur.open && prev.close > prev.open && cur.close > prev.close)
      && (CheckVolumeSignal(ks) == Some(Short) <==>
            breakout && cur.close < cur.open && prev.close < prev.open && cur.close < prev.close)
  {
    PriceChangeSign(ks[|ks| - 1]);
    PriceChangeSign(ks[|ks| - 2]);
  }
}
