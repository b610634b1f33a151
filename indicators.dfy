/**
 * The stateless indicators: RSI with a simple average, the simple moving average,
 * buy/sell volume delta, the point of control and the volume-weighted summary.
 * The analyzers each carry a copy of these formulas; the copies compute the same
 * values and are modelled once here.
 */
module Indicators {
  import opened Wrappers
  import opened Candles

  /** `numpy.diff`: the change from each value to the next. */
  function Diffs(xs: seq<real>): (ds: seq<real>)
    ensures |ds| == if |xs| == 0 then 0 else |xs| - 1
    ensures forall i :: 0 <= i < |ds| ==> ds[i] == xs[i + 1] - xs[i]
  {
    if |xs| <= 1 then [] else seq(|xs| - 1, i requires 0 <= i < |xs| - 1 => xs[i + 1] - xs[i])
  }

  function Gain(d: real): real {
    if d > 0.0 then d else 0.0
  }

  function Loss(d: real): real {
    if d < 0.0 then -d else 0.0
  }

  function Gains(ds: seq<real>): (gs: seq<real>)
    ensures |gs| == |ds|
    ensures forall i :: 0 <= i < |ds| ==> gs[i] == Gain(ds[i]) && gs[i] >= 0.0
  {
    seq(|ds|, i requires 0 <= i < |ds| => Gain(ds[i]))
  }

  function Losses(ds: seq<real>): (ls: seq<real>)
    ensures |ls| == |ds|
    ensures forall i :: 0 <= i < |ds| ==> ls[i] == Loss(ds[i]) && ls[i] >= 0.0
  {
    seq(|ds|, i requires 0 <= i < |ds| => Loss(ds[i]))
  }

  /**
   * The RSI formula 100 - 100 / (1 + avgGain / avgLoss), with 100 when the average
   * loss is zero. It is 100 exactly when there is no average loss.
   */
  function RsiFromAverages(avgGain: real, avgLoss: real): (r: real)
    requires avgGain >= 0.0 && avgLoss >= 0.0
    ensures 0.0 <= r <= 100.0
    ensures r == 100.0 <==> avgLoss == 0.0
  {
    if avgLoss == 0.0 then 100.0
    else
      var rs := avgGain / avgLoss;
      assert rs >= 0.0;
      assert 100.0 / (1.0 + rs) > 0.0;
      assert 100.0 / (1.0 + rs) <= 100.0 by {
        assert (100.0 / (1.0 + rs)) * (1.0 + rs) == 100.0;
      }
      100.0 - 100.0 / (1.0 + rs)
  }

  /**
   * RSI over closing prices with plain means of the last `period` gains and losses;
   * 50 when there are fewer than period + 1 closes.
   */
  function SimpleRsi(closes: seq<real>, period: nat): (r: real)
    requires period > 0
    ensures |closes| < period + 1 ==> r == 50.0
    ensures 0.0 <= r <= 100.0
  {
    if |closes| < period + 1 then 50.0
    else
      var ds := Diffs(closes);
      var g := TailN(Gains(ds), period);
      var l := TailN(Losses(ds), period);
      TailNIsSuffix(Gains(ds), period);
      TailNIsSuffix(Losses(ds), period);
      TailNonNegative(Gains(ds), period);
      TailNonNegative(Losses(ds), period);
      DivNonNegative(Sum(g), period as real);
      DivNonNegative(Sum(l), period as real);
      RsiFromAverages(Sum(g) / period as real, Sum(l) / period as real)
  }


  lemma {:induction false} TailNonNegative(s: seq<real>, n: nat)
    requires forall i :: 0 <= i < |s| ==> s[i] >= 0.0
    ensures Sum(TailN(s, n)) >= 0.0
  {
    var t := TailN(s, n);
    assert forall j :: 0 <= j < |t| ==> t[j] in s;
    SumNonNegative(t);
  }

  /** With enough closes, the simple RSI is 100 exactly when none of the last `period` moves is a fall. */
  lemma {:induction false} SimpleRsiHundredIffNoFall(closes: seq<real>, period: nat)
    requires period > 0 && |closes| >= period + 1
    ensures SimpleRsi(closes, period) == 100.0 <==>
      forall i :: |closes| - 1 - period <= i < |closes| - 1 ==> closes[i] <= closes[i + 1]
  {
    var l := Losses(Diffs(closes))[|closes| - 1 - period..];
    SimpleRsiHundredIffNoLoss(closes, period);
    assert forall j :: 0 <= j < |l| ==> l[j] >= 0.0;
    SumNonNegative(l);
    RecentLossesZeroIffNoFall(closes, period);
  }

  /** With enough closes, the simple RSI is 100 exactly when the last `period` losses sum to zero. */
  lemma {:induction false} SimpleRsiHundredIffNoLoss(closes: seq<real>, period: nat)
    requires period > 0 && |closes| >= period + 1
    ensures SimpleRsi(closes, period) == 100.0 <==> Sum(Losses(Diffs(closes))[|closes| - 1 - period..]) == 0.0
  {
    var ds := Diffs(closes);
    var g := TailN(Gains(ds), period);
    var l := TailN(Losses(ds), period);
    TailNIsSuffix(Losses(ds), period);
    TailNonNegative(Gains(ds), period);
    TailNonNegative(Losses(ds), period);
    DivNonNegative(Sum(g), period as real);
    DivNonNegative(Sum(l), period as real);
    var avgGain, avgLoss := Sum(g) / period as real, Sum(l) / period as real;
    assert SimpleRsi(closes, period) == RsiFromAverages(avgGain, avgLoss);
    assert RsiFromAverages(avgGain, avgLoss) == 100.0 <==> Sum(l) == 0.0;
    assert |Losses(ds)| == |closes| - 1;
    assert l == Losses(ds)[|closes| - 1 - period..];
  }

  /** The loss of the move out of close k. */
  lemma {:induction false} LossAt(closes: seq<real>, k: int)
    requires 0 <= k < |closes| - 1
    ensures Losses(Diffs(closes))[k] == 0.0 <==> closes[k] <= closes[k + 1]
  {
    var ds := Diffs(closes);
    assert ds[k] == closes[k + 1] - closes[k];
  }

  lemma {:induction false} RecentLossesZeroIffNoFall(closes: seq<real>, period: nat)
    requires period > 0 && |closes| >= period + 1
    ensures var l := Losses(Diffs(closes))[|closes| - 1 - period..];
      (forall j :: 0 <= j < |l| ==> l[j] == 0.0) <==>
      forall i :: |closes| - 1 - period <= i < |closes| - 1 ==> closes[i] <= closes[i + 1]
  {
    var lo := |closes| - 1 - period;
    var ls := Losses(Diffs(closes));
    var l := ls[lo..];
    assert |ls| == |closes| - 1;
    if forall j :: 0 <= j < |l| ==> l[j] == 0.0 {
      forall i | lo <= i < |closes| - 1 ensures closes[i] <= closes[i + 1] {
        assert l[i - lo] == ls[i];
        LossAt(closes, i);
      }
    }
    if forall i :: lo <= i < |closes| - 1 ==> closes[i] <= closes[i + 1] {
      forall j | 0 <= j < |l| ensures l[j] == 0.0 {
        assert l[j] == ls[lo + j];
        LossAt(closes, lo + j);
      }
    }
  }

  /**
   * Simple moving average of the last `period` closes; 0 when there are fewer than
   * `period` closes, and 0 for period 0 (the division by zero is caught).
   */
  function Ma(closes: seq<real>, period: nat): (r: real)
    ensures |closes| < period || period == 0 ==> r == 0.0
    ensures period > 0 && |closes| >= period ==>
      MinOf(closes[|closes| - period..]) <= r <= MaxOf(closes[|closes| - period..])
  {
    if |closes| < period || period == 0 then 0.0
    else
      var w := TailN(closes, period);
      TailNIsSuffix(closes, period);
      MeanBetween(w, MinOf(w), MaxOf(w));
      Sum(w) / period as real
  }

  /** Volume of each candle that counts as buying: close at or above open. */
  function BuyVolumes(ks: seq<Candle>): (vs: seq<real>)
    ensures |vs| == |ks|
    ensures forall i :: 0 <= i < |ks| ==> vs[i] == if ks[i].close >= ks[i].open then ks[i].volume else 0.0
  {
    seq(|ks|, i requires 0 <= i < |ks| => if ks[i].close >= ks[i].open then ks[i].volume else 0.0)
  }

  /** Volume of each candle that counts as selling: close below open. */
  function SellVolumes(ks: seq<Candle>): (vs: seq<real>)
    ensures |vs| == |ks|
    ensures forall i :: 0 <= i < |ks| ==> vs[i] == if ks[i].close < ks[i].open then ks[i].volume else 0.0
  {
    seq(|ks|, i requires 0 <= i < |ks| => if ks[i].close < ks[i].open then ks[i].volume else 0.0)
  }

  /** Buy minus sell volume as a percentage of the total; 0 below two candles or without volume. */
  function Delta(ks: seq<Candle>): (r: real)
    ensures |ks| < 2 ==> r == 0.0
    ensures Sum(BuyVolumes(ks)) + Sum(SellVolumes(ks)) <= 0.0 ==> r == 0.0
  {
    if |ks| < 2 then 0.0
    else
      var buy := Sum(BuyVolumes(ks));
      var sell := Sum(SellVolumes(ks));
      var total := buy + sell;
      if total > 0.0 then (buy - sell) / total * 100.0 else 0.0
  }

  /** With non-negative volumes the delta is a percentage in [-100, 100]. */
  lemma {:induction false} DeltaBounded(ks: seq<Candle>)
    requires forall i :: 0 <= i < |ks| ==> ks[i].volume >= 0.0
    ensures -100.0 <= Delta(ks) <= 100.0
  {
    var buy := Sum(BuyVolumes(ks));
    var sell := Sum(SellVolumes(ks));
    SumNonNegative(BuyVolumes(ks));
    SumNonNegative(SellVolumes(ks));
    if |ks| >= 2 && buy + sell > 0.0 {
      var total := buy + sell;
      QuotientBetween(buy - sell, total, -1.0, 1.0);
    }
  }

  /**
   * When no candle closes below its open (dojis included) the delta is +100, and when
   * every candle closes below its open it is -100, provided there is some volume.
   */
  lemma {:induction false} DeltaUnanimous(ks: seq<Candle>)
    requires |ks| >= 2
    requires forall i :: 0 <= i < |ks| ==> ks[i].volume >= 0.0
    requires exists i :: 0 <= i < |ks| && ks[i].volume > 0.0
    ensures (forall i :: 0 <= i < |ks| ==> ks[i].close >= ks[i].open) ==> Delta(ks) == 100.0
    ensures (forall i :: 0 <= i < |ks| ==> ks[i].close < ks[i].open) ==> Delta(ks) == -100.0
  {
    var b, s := BuyVolumes(ks), SellVolumes(ks);
    SumNonNegative(b);
    SumNonNegative(s);
    var i :| 0 <= i < |ks| && ks[i].volume > 0.0;
    if forall j :: 0 <= j < |ks| ==> ks[j].close >= ks[j].open {
      assert b[i] > 0.0;
      assert Sum(s) == 0.0;
      assert Sum(b) / Sum(b) == 1.0;
    }
    if forall j :: 0 <= j < |ks| ==> ks[j].close < ks[j].open {
      assert s[i] > 0.0;
      assert Sum(b) == 0.0;
      assert (0.0 - Sum(s)) / Sum(s) == -1.0;
    }
  }

  /** Midpoints of every candle of every timeframe, pooled in order. */
  function PooledMidpoints(tfs: seq<seq<Candle>>): (ps: seq<real>)
    ensures ps == [] <==> forall t :: 0 <= t < |tfs| ==> tfs[t] == []
  {
    if tfs == [] then []
    else
      var init := tfs[..|tfs| - 1];
      assert forall t :: 0 <= t < |init| ==> init[t] == tfs[t];
      PooledMidpoints(init) + Midpoints(tfs[|tfs| - 1])
  }

  /** Point of control: the median pooled midpoint, None when there are no candles at all. */
  function Poc(tfs: seq<seq<Candle>>): (r: Option<real>)
    ensures r.None? <==> forall t :: 0 <= t < |tfs| ==> tfs[t] == []
    ensures r.Some? ==> MinOf(PooledMidpoints(tfs)) <= r.value <= MaxOf(PooledMidpoints(tfs))
  {
    var ps := PooledMidpoints(tfs);
    if ps == [] then None else Some(Median(ps))
  }

  /** `calculate_poc`: each timeframe's midpoints extend the pool in turn, and a non-empty pool gives its median. */
  method CalculatePoc(tfs: seq<seq<Candle>>) returns (r: Option<real>)
    ensures r == Poc(tfs)
  {
    var all: seq<real> := [];
    var t := 0;
    while t < |tfs|
      invariant 0 <= t <= |tfs|
      invariant all == PooledMidpoints(tfs[..t])
    {
      assert tfs[..t + 1][..t] == tfs[..t];
      all := all + Midpoints(tfs[t]);
      t := t + 1;
    }
    assert tfs[..t] == tfs;
    if all == [] {
      return None;
    }
    r := Some(Median(all));
  }

  /** Σ p·v over paired prices and volumes, accumulated left to right. */
  function WeightedSum(ps: seq<real>, vs: seq<real>): real
    requires |ps| == |vs|
  {
    if ps == [] then 0.0
    else WeightedSum(ps[..|ps| - 1], vs[..|vs| - 1]) + ps[|ps| - 1] * vs[|vs| - 1]
  }


  /** Weighting prices in [lo, hi] by non-negative volumes gives lo·Σv <= Σp·v <= hi·Σv. */
  lemma {:induction false} WeightedSumBounds(ps: seq<real>, vs: seq<real>, lo: real, hi: real)
    requires |ps| == |vs|
    requires forall i :: 0 <= i < |ps| ==> lo <= ps[i] <= hi
    requires forall i :: 0 <= i < |vs| ==> vs[i] >= 0.0
    ensures lo * Sum(vs) <= WeightedSum(ps, vs) <= hi * Sum(vs)
  {
    WeightedSumAtLeast(ps, vs, lo);
    WeightedSumAtMost(ps, vs, hi);
  }

  lemma {:induction false} WeightedSumAtLeast(ps: seq<real>, vs: seq<real>, lo: real)
    requires |ps| == |vs|
    requires forall i :: 0 <= i < |ps| ==> lo <= ps[i]
    requires forall i :: 0 <= i < |vs| ==> vs[i] >= 0.0
    ensures lo * Sum(vs) <= WeightedSum(ps, vs)
  {
    if ps != [] {
      var n := |ps| - 1;
      var p', v' := ps[..n], vs[..n];
      var p, v := ps[n], vs[n];
      var sum', weighted' := Sum(v'), WeightedSum(p', v');
      assert lo * sum' <= weighted' by {
        WeightedSumAtLeast(p', v', lo);
      }
      assert lo * v <= p * v by {
        ScaleMonotone(lo, p, v);
      }
      assert lo * Sum(vs) == lo * sum' + lo * v by {
        assert Sum(vs) == sum' + v;
        MulDistributes(lo, sum', v);
      }
      assert WeightedSum(ps, vs) == weighted' + p * v;
    }
  }

  lemma {:induction false} WeightedSumAtMost(ps: seq<real>, vs: seq<real>, hi: real)
    requires |ps| == |vs|
    requires forall i :: 0 <= i < |ps| ==> ps[i] <= hi
    requires forall i :: 0 <= i < |vs| ==> vs[i] >= 0.0
    ensures WeightedSum(ps, vs) <= hi * Sum(vs)
  {
    if ps != [] {
      var n := |ps| - 1;
      var p', v' := ps[..n], vs[..n];
      var p, v := ps[n], vs[n];
      var sum', weighted' := Sum(v'), WeightedSum(p', v');
      assert weighted' <= hi * sum' by {
        WeightedSumAtMost(p', v', hi);
      }
      assert p * v <= hi * v by {
        ScaleMonotone(p, hi, v);
      }
      assert hi * Sum(vs) == hi * sum' + hi * v by {
        assert Sum(vs) == sum' + v;
        MulDistributes(hi, sum', v);
      }
      assert WeightedSum(ps, vs) == weighted' + p * v;
    }
  }

  /** The volume summary: closes, volumes, their total and the volume-weighted average price. */
  datatype VolumeSummary = VolumeSummary(priceLevels: seq<real>, volumes: seq<real>, totalVolume: real, vwap: real)

  /** The summary returned when the volumes sum to zero (the division by zero is caught). */
  const EmptySummary := VolumeSummary([], [], 0.0, 0.0)

  function Summarize(ks: seq<Candle>): (r: VolumeSummary)
    ensures Sum(Volumes(ks)) == 0.0 ==> r == EmptySummary
    ensures Sum(Volumes(ks)) != 0.0 ==>
      r.priceLevels == Closes(ks) && r.volumes == Volumes(ks) && r.totalVolume == Sum(Volumes(ks))
      && r.vwap * r.totalVolume == WeightedSum(Closes(ks), Volumes(ks))
  {
    var ps, vs := Closes(ks), Volumes(ks);
    if Sum(vs) == 0.0 then EmptySummary
    else VolumeSummary(ps, vs, Sum(vs), WeightedSum(ps, vs) / Sum(vs))
  }

  /** With non-negative volumes and some volume, the VWAP lies between the lowest and highest close. */
  lemma {:induction false} VwapBetweenCloses(ks: seq<Candle>)
    requires forall i :: 0 <= i < |ks| ==> ks[i].volume >= 0.0
    requires Sum(Volumes(ks)) > 0.0
    ensures |ks| > 0
    ensures MinOf(Closes(ks)) <= Summarize(ks).vwap <= MaxOf(Closes(ks))
  {
    var ps, vs := Closes(ks), Volumes(ks);
    assert |ks| > 0;
    assert forall i :: 0 <= i < |vs| ==> vs[i] >= 0.0;
    WeightedMeanBetween(ps, vs, MinOf(ps), MaxOf(ps));
  }

  /** A mean of prices in [lo, hi] weighted by non-negative weights of positive total lies in [lo, hi]. */
  lemma {:induction false} WeightedMeanBetween(ps: seq<real>, vs: seq<real>, lo: real, hi: real)
    requires |ps| == |vs|
    requires forall i :: 0 <= i < |ps| ==> lo <= ps[i] <= hi
    requires forall i :: 0 <= i < |vs| ==> vs[i] >= 0.0
    requires Sum(vs) > 0.0
    ensures lo <= WeightedSum(ps, vs) / Sum(vs) <= hi
  {
    var w, total := WeightedSum(ps, vs), Sum(vs);
    WeightedSumBounds(ps, vs, lo, hi);
    QuotientBetween(w, total, lo, hi);
  }
}
