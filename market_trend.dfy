/**
 * The market trend analyzer: a bounded history of order-book states, the classification of
 * the market as ACCUMULATION (LONG), DISTRIBUTION (SHORT) or NEUTRAL from the bid/ask
 * volume and count ratios, the volume deltas and the moving averages, and the confidence
 * score that downgrades a weak directional result to NEUTRAL. The order book, ticker and
 * candles are fetched by the source; here the order-book state and the candles are inputs.
 */
module MarketTrendAnalysis {
  import opened Wrappers
  import opened Candles
  import opened Indicators
  import opened Entities
  import BoundedBuffer

  /** An order-book state as `get_order_book_state` builds it (timestamp left out). */
  datatype MarketState = MarketState(
    currentPrice: real, volRatio: real, cntRatio: real, spread: real,
    bidVol: real, askVol: real, bidCnt: int, askCnt: int,
    rsi5: real, ma20: real, ma50: real)

  /** The confidence a directional result needs to be reported. */
  const MinConfidenceThreshold: real := 0.7

  /** A classification before the confidence check: kind, strength and signal. */
  datatype Classified = Classified(kind: TrendType, strength: real, signal: Option<Direction>)

  const NeutralClass: Classified := Classified(Neutral, 0.0, None)

  function Min(a: real, b: real): real {
    if a <= b then a else b
  }

  /**
   * The classification of `analyze_trend`, in the source's evaluation order: ACCUMULATION
   * when both ratios beat their thresholds, both deltas are positive and price > MA20 > MA50,
   * with strength the smaller ratio-to-threshold; otherwise DISTRIBUTION when both ratios are
   * under the reciprocal thresholds, both deltas negative and price < MA20 < MA50, with
   * strength the smaller of 1/(ratio·threshold); otherwise NEUTRAL. `None` is a division by
   * zero, which the source catches and reports as no trend.
   */
  function Classify(vr: real, cr: real, delta5: real, delta15: real, price: real, ma20: real, ma50: real, vt: real, ct: real): (r: Option<Classified>)
    ensures r.Some? && r.value.kind == Neutral ==> r.value == NeutralClass
    ensures r.Some? && r.value.kind == Accumulation ==> r.value.signal == Some(Long)
    ensures r.Some? && r.value.kind == Distribution ==> r.value.signal == Some(Short)
  {
    if vr > vt && cr > ct && delta5 > 0.0 && delta15 > 0.0 && price > ma20 > ma50 then
      if vt == 0.0 || ct == 0.0 then None
      else Some(Classified(Accumulation, Min(vr / vt, cr / ct), Some(Long)))
    else if vt == 0.0 then None
    else if !(vr < 1.0 / vt) then Some(NeutralClass)
    else if ct == 0.0 then None
    else if cr < 1.0 / ct && delta5 < 0.0 && delta15 < 0.0 && price < ma20 < ma50 then
      if vr * vt == 0.0 || cr * ct == 0.0 then None
      else Some(Classified(Distribution, Min(1.0 / (vr * vt), 1.0 / (cr * ct)), Some(Short)))
    else Some(NeutralClass)
  }

  /**
   * With positive thresholds and non-zero ratios nothing raises, ACCUMULATION holds exactly
   * under its five conditions and DISTRIBUTION exactly under its mirrored ones.
   */
  lemma {:induction false} ClassifySides(vr: real, cr: real, delta5: real, delta15: real, price: real, ma20: real, ma50: real, vt: real, ct: real)
    requires vt > 0.0 && ct > 0.0 && vr != 0.0 && cr != 0.0
    ensures Classify(vr, cr, delta5, delta15, price, ma20, ma50, vt, ct).Some?
    ensures Classify(vr, cr, delta5, delta15, price, ma20, ma50, vt, ct).value.kind == Accumulation <==>
      vr > vt && cr > ct && delta5 > 0.0 && delta15 > 0.0 && price > ma20 > ma50
    ensures Classify(vr, cr, delta5, delta15, price, ma20, ma50, vt, ct).value.kind == Distribution <==>
      vr < 1.0 / vt && cr < 1.0 / ct && delta5 < 0.0 && delta15 < 0.0 && price < ma20 < ma50
  {
    assert vr * vt != 0.0 && cr * ct != 0.0;
  }

  /** An ACCUMULATION strength is at least 1: both ratios exceed their thresholds. */
  lemma {:induction false} AccumulationStrength(vr: real, cr: real, delta5: real, delta15: real, price: real, ma20: real, ma50: real, vt: real, ct: real)
    requires vt > 0.0 && ct > 0.0
    requires Classify(vr, cr, delta5, delta15, price, ma20, ma50, vt, ct).Some?
    requires Classify(vr, cr, delta5, delta15, price, ma20, ma50, vt, ct).value.kind == Accumulation
    ensures Classify(vr, cr, delta5, delta15, price, ma20, ma50, vt, ct).value.strength > 1.0
  {
    assert (vr / vt) * vt == vr;
    assert (cr / ct) * ct == cr;
  }

  /**
   * `_calculate_trend_confidence`: the weights 0.3, 0.2, 0.2, 0.2 and 0.1 of the volume-ratio,
   * count-ratio, RSI, moving-average and tight-spread conditions that hold for the trend
   * kind; nothing for NEUTRAL.
   */
  function TrendConfidence(s: MarketState, kind: TrendType, vt: real, ct: real): (c: real)
    requires kind == Distribution ==> vt != 0.0 && ct != 0.0
    ensures 0.0 <= c <= 1.0
    ensures kind == Neutral ==> c == 0.0
  {
    match kind
    case Accumulation =>
      (if s.volRatio > vt then 0.3 else 0.0)
      + (if s.cntRatio > ct then 0.2 else 0.0)
      + (if s.rsi5 < 65.0 then 0.2 else 0.0)
      + (if s.currentPrice > s.ma20 > s.ma50 then 0.2 else 0.0)
      + (if s.spread < 0.001 then 0.1 else 0.0)
    case Distribution =>
      (if s.volRatio < 1.0 / vt then 0.3 else 0.0)
      + (if s.cntRatio < 1.0 / ct then 0.2 else 0.0)
      + (if s.rsi5 > 35.0 then 0.2 else 0.0)
      + (if s.currentPrice < s.ma20 < s.ma50 then 0.2 else 0.0)
      + (if s.spread < 0.001 then 0.1 else 0.0)
    case Neutral => 0.0
  }

  /**
   * The outcome of `analyze_trend` once the state is recorded: the classification, then the
   * downgrade of a directional result under 0.7 confidence to NEUTRAL (strength 0, no
   * signal, confidence 0), then `MarketTrend` validation, which rejects a strength above 5.
   */
  function TrendOf(s: MarketState, k5: seq<Candle>, k15: seq<Candle>, vt: real, ct: real): (r: Option<MarketTrend>)
    ensures r.Some? ==> r.value.price == s.currentPrice
    ensures r.Some? ==> 0.0 <= r.value.strength <= 5.0 && 0.0 <= r.value.confidence <= 1.0
    ensures r.Some? && r.value.kind == Neutral ==> r.value.strength == 0.0 && r.value.signal == None && r.value.confidence == 0.0
    ensures r.Some? && r.value.kind != Neutral ==> r.value.confidence >= MinConfidenceThreshold
  {
    match Classify(s.volRatio, s.cntRatio, Delta(k5), Delta(k15), s.currentPrice, Ma(Closes(k5), 20), Ma(Closes(k15), 50), vt, ct)
    case None => None
    case Some(c) =>
      var confidence := TrendConfidence(s, c.kind, vt, ct);
      if c.kind != Neutral && confidence < MinConfidenceThreshold then
        MarketTrendOf(TrendTypeName(Neutral), 0.0, None, s.currentPrice, 0.0)
      else
        MarketTrendOf(TrendTypeName(c.kind), c.strength, c.signal, s.currentPrice, confidence)
  }

  /**
   * An ACCUMULATION classification already scores the two ratio weights (0.5), so it is kept
   * exactly when the RSI is under 65 or the recorded state's price, MA20 and MA50 are stacked
   * upward.
   */
  lemma {:induction false} AccumulationKeptIff(s: MarketState, k5: seq<Candle>, k15: seq<Candle>, vt: real, ct: real)
    requires vt > 0.0 && ct > 0.0
    requires Classify(s.volRatio, s.cntRatio, Delta(k5), Delta(k15), s.currentPrice, Ma(Closes(k5), 20), Ma(Closes(k15), 50), vt, ct).Some?
    requires Classify(s.volRatio, s.cntRatio, Delta(k5), Delta(k15), s.currentPrice, Ma(Closes(k5), 20), Ma(Closes(k15), 50), vt, ct).value.kind == Accumulation
    ensures TrendConfidence(s, Accumulation, vt, ct) >= MinConfidenceThreshold <==>
      s.rsi5 < 65.0 || s.currentPrice > s.ma20 > s.ma50
  {
  }

  /**
   * A very strong accumulation, with both ratios over five times their thresholds, has a
   * strength above 5: `MarketTrend` rejects it and no trend is reported at all.
   */
  lemma {:induction false} VeryStrongAccumulationIsDropped(s: MarketState, k5: seq<Candle>, k15: seq<Candle>, vt: real, ct: real)
    requires vt > 0.0 && ct > 0.0
    requires s.volRatio > 5.0 * vt && s.cntRatio > 5.0 * ct
    requires Delta(k5) > 0.0 && Delta(k15) > 0.0 && s.currentPrice > Ma(Closes(k5), 20) > Ma(Closes(k15), 50)
    requires s.rsi5 < 65.0
    ensures TrendOf(s, k5, k15, vt, ct) == None
  {
    var c := Classify(s.volRatio, s.cntRatio, Delta(k5), Delta(k15), s.currentPrice, Ma(Closes(k5), 20), Ma(Closes(k15), 50), vt, ct);
    VeryStrongClassified(s.volRatio, s.cntRatio, Delta(k5), Delta(k15), s.currentPrice, Ma(Closes(k5), 20), Ma(Closes(k15), 50), vt, ct);
    assert TrendConfidence(s, Accumulation, vt, ct) >= MinConfidenceThreshold;
    assert TrendOf(s, k5, k15, vt, ct) == MarketTrendOf(TrendTypeName(Accumulation), c.value.strength, Some(Long), s.currentPrice, TrendConfidence(s, Accumulation, vt, ct));
  }

  lemma {:induction false} VeryStrongClassified(vr: real, cr: real, delta5: real, delta15: real, price: real, ma20: real, ma50: real, vt: real, ct: real)
    requires vt > 0.0 && ct > 0.0 && vr > 5.0 * vt && cr > 5.0 * ct
    requires delta5 > 0.0 && delta15 > 0.0 && price > ma20 > ma50
    ensures var c := Classify(vr, cr, delta5, delta15, price, ma20, ma50, vt, ct);
      c.Some? && c.value.kind == Accumulation && c.value.signal == Some(Long) && c.value.strength > 5.0
  {
    QuotientAbove(vr, vt, 5.0);
    QuotientAbove(cr, ct, 5.0);
  }

  /** The analyzer's state: thresholds, history capacity, the recorded states and the last trend. */
  class MarketTrendAnalyzer {
    var historySize: nat
    var volThreshold: real
    var cntThreshold: real
    var history: seq<MarketState>
    var lastTrend: Option<MarketTrend>

    ghost predicate Valid()
      reads this
    {
      |history| <= historySize
    }

    /**
     * A new analyzer with the given thresholds and history capacity (the source's defaults
     * are 1.5, 1.5 and 100), no recorded states and no last trend.
     */
    constructor (volThreshold: real, cntThreshold: real, historySize: nat)
      ensures Valid() && history == [] && lastTrend == None
      ensures this.historySize == historySize && this.volThreshold == volThreshold && this.cntThreshold == cntThreshold
    {
      this.historySize := historySize;
      this.volThreshold := volThreshold;
      this.cntThreshold := cntThreshold;
      history := [];
      lastTrend := None;
    }

    /**
     * `get_order_book_state` once its inputs are fetched: a state with a non-positive price
     * or a negative spread fails validation and nothing is recorded; otherwise the state is
     * appended and the oldest one dropped once the history exceeds its size.
     */
    method GetOrderBookState(s: MarketState) returns (r: Option<MarketState>)
      requires Valid()
      modifies this
      ensures Valid()
      ensures historySize == old(historySize) && volThreshold == old(volThreshold) && cntThreshold == old(cntThreshold)
      ensures lastTrend == old(lastTrend)
      ensures r.Some? <==> MarketStateValid(s.currentPrice, s.spread)
      ensures r.Some? ==> r.value == s && history == BoundedBuffer.Push(old(history), s, historySize)
      ensures r.None? ==> history == old(history)
      ensures r.Some? && historySize > 0 ==> history[|history| - 1] == s
    {
      if !MarketStateValid(s.currentPrice, s.spread) {
        return None;
      }
      BoundedBuffer.PushBounded(history, s, historySize);
      history := history + [s];
      if |history| > historySize {
        history := history[1..];
      }
      r := Some(s);
    }

    /**
     * `analyze_trend` once its inputs are fetched: the state is recorded first (a rejected
     * state gives no trend), then the trend is classified from the 5m and 15m candles, and a
     * reported trend becomes the last trend.
     */
    method AnalyzeTrend(s: MarketState, k5: seq<Candle>, k15: seq<Candle>) returns (r: Option<MarketTrend>)
      requires Valid()
      modifies this
      ensures Valid()
      ensures historySize == old(historySize) && volThreshold == old(volThreshold) && cntThreshold == old(cntThreshold)
      ensures !MarketStateValid(s.currentPrice, s.spread) ==> r == None && history == old(history) && lastTrend == old(lastTrend)
      ensures MarketStateValid(s.currentPrice, s.spread) ==>
        history == BoundedBuffer.Push(old(history), s, historySize) && r == TrendOf(s, k5, k15, volThreshold, cntThreshold)
      ensures lastTrend == (if r.Some? then r else old(lastTrend))
    {
      var state := GetOrderBookState(s);
      if state.None? {
        return None;
      }
      r := TrendOf(s, k5, k15, volThreshold, cntThreshold);
      if r.Some? {
        lastTrend := r;
      }
    }
  }
}
