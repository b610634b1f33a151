/**
 * The futures analyzer: the pre-filter a symbol must pass before it is analyzed, the
 * MA/RSI entry gate over the 5-minute and 15-minute candles, the ATR-based stop and target
 * of a generated signal, its clamped confidence, and the aggregation of the order book
 * into volume zones. Exchange fetches are inputs: the ticker, the order book, the
 * funding rates and the candles arrive as parameters.
 */
module Futures {
  import opened Wrappers
  import opened Candles
  import opened Indicators
  import opened Constants
  import opened Entities
  import SignalProcessor

  /** RSI ceiling of an accumulation (LONG) entry and floor of a distribution (SHORT) entry. */
  const AccumulationRsiMax: real := 65.0
  const DistributionRsiMin: real := 35.0
  /** Long/short volume ratio at which the volume part of the confidence saturates. */
  const MaxLsRatio: real := 10.0
  /** Zones with fewer orders than this are dropped. */
  const MinOrderCount: int := 1
  /** Floor of the short volume in the long/short ratio. */
  const ShortVolumeFloor: real := 0.000001

  // ---------------------------------------------------------------------------
  // Pre-filter

  /** The pre-filter thresholds (the analyzer's settings, defaulted below). */
  datatype PreFilterSettings = PreFilterSettings(min24hVolume: real, maxSpread: real, maxFundingRate: real)

  const DefaultPreFilter: PreFilterSettings := PreFilterSettings(300000.0, 0.003, 0.001)

  /** Which check decided the pre-filter; `FetchFailed` is a missing quote or a failed division. */
  datatype PreFilterVerdict = Passed | LowVolume | WideSpread | HighFunding | FetchFailed

  /** The 24h quote volume: base volume times last price. */
  function QuoteVolume(volume: real, lastPrice: real): real {
    volume * lastPrice
  }

  /** The relative spread between the best ask and the best bid. */
  function Spread(bestAsk: real, bestBid: real): real
    requires bestBid != 0.0
  {
    (bestAsk - bestBid) / bestBid
  }

  /**
   * `quick_pre_filter`, with the checks in the source's order: the quote volume first (no
   * order book is read when it is too low), then the spread of the top of the book, then
   * the latest funding rate. An empty book side, a zero best bid or no funding rate raise,
   * and the source rejects the symbol.
   */
  function PreFilter(s: PreFilterSettings, volume: real, lastPrice: real, asks: seq<real>, bids: seq<real>, fundingRates: seq<real>): (r: PreFilterVerdict)
    ensures QuoteVolume(volume, lastPrice) < s.min24hVolume ==> r == LowVolume
    ensures r == WideSpread ==> QuoteVolume(volume, lastPrice) >= s.min24hVolume
    ensures r == HighFunding ==>
      (QuoteVolume(volume, lastPrice) >= s.min24hVolume && asks != [] && bids != [] && bids[0] != 0.0 && Spread(asks[0], bids[0]) <= s.maxSpread)
  {
    if QuoteVolume(volume, lastPrice) < s.min24hVolume then LowVolume
    else if asks == [] || bids == [] || bids[0] == 0.0 then FetchFailed
    else if Spread(asks[0], bids[0]) > s.maxSpread then WideSpread
    else if fundingRates == [] then FetchFailed
    else if Abs(fundingRates[0]) > s.maxFundingRate then HighFunding
    else Passed
  }

  /** The pre-filter passes exactly when the data is there and all three thresholds hold. */
  lemma {:induction false} PreFilterPassesIff(s: PreFilterSettings, volume: real, lastPrice: real, asks: seq<real>, bids: seq<real>, fundingRates: seq<real>)
    ensures PreFilter(s, volume, lastPrice, asks, bids, fundingRates) == Passed <==>
      && QuoteVolume(volume, lastPrice) >= s.min24hVolume
      && asks != [] && bids != [] && bids[0] != 0.0
      && Spread(asks[0], bids[0]) <= s.maxSpread
      && fundingRates != []
      && Abs(fundingRates[0]) <= s.maxFundingRate
  {
  }

  // ---------------------------------------------------------------------------
  // Entry gate

  /**
   * The entry gate of `analyze_entry_conditions`: LONG when the price is above the 5m MA20
   * which is above the 15m MA50 and neither RSI reaches 65; otherwise SHORT in the mirrored
   * order with both RSIs above 35; otherwise nothing.
   */
  function EntryGate(price: real, ma20: real, ma50: real, rsi5: real, rsi15: real): Option<Direction> {
    if price > ma20 > ma50 && rsi5 < AccumulationRsiMax && rsi15 < AccumulationRsiMax then Some(Long)
    else if price < ma20 < ma50 && rsi5 > DistributionRsiMin && rsi15 > DistributionRsiMin then Some(Short)
    else None
  }

  /**
   * Each side opens exactly under its own conditions: the LONG test going first never hides
   * a SHORT, since the price cannot be both above and below the MA20.
   */
  lemma {:induction false} EntryGateSides(price: real, ma20: real, ma50: real, rsi5: real, rsi15: real)
    ensures EntryGate(price, ma20, ma50, rsi5, rsi15) == Some(Long) <==>
      price > ma20 > ma50 && rsi5 < AccumulationRsiMax && rsi15 < AccumulationRsiMax
    ensures EntryGate(price, ma20, ma50, rsi5, rsi15) == Some(Short) <==>
      price < ma20 < ma50 && rsi5 > DistributionRsiMin && rsi15 > DistributionRsiMin
  {
  }

  // ---------------------------------------------------------------------------
  // Levels, ATR, volume ratio and confidence

  /** Stop loss and take profit of a futures signal. */
  datatype Levels = Levels(stopLoss: real, takeProfit: real)

  /** LONG: stop 1.5 ATR below and target 3 ATR above the entry; SHORT mirrored (ATR as a fraction of price). */
  function AtrLevels(side: Direction, entry: real, atr: real): Levels {
    match side
    case Long => Levels(entry * (1.0 - atr * 1.5), entry * (1.0 + atr * 3.0))
    case Short => Levels(entry * (1.0 + atr * 1.5), entry * (1.0 - atr * 3.0))
  }

  /**
   * For a positive entry and ATR the stop and the target lie on the trade's two sides, and
   * the target is twice as far from the entry as the stop.
   */
  lemma {:induction false} AtrLevelsOrdered(side: Direction, entry: real, atr: real)
    requires entry > 0.0 && atr > 0.0
    ensures var l := AtrLevels(side, entry, atr);
      && (side == Long ==> l.takeProfit > entry > l.stopLoss)
      && (side == Short ==> l.takeProfit < entry < l.stopLoss)
      && l.takeProfit - entry == -2.0 * (l.stopLoss - entry)
  {
    var u := entry * atr;
    assert u > 0.0;
    var l := AtrLevels(side, entry, atr);
    match side
    case Long =>
      assert l.stopLoss == entry - u * 1.5;
      assert l.takeProfit == entry + u * 3.0;
    case Short =>
      assert l.stopLoss == entry + u * 1.5;
      assert l.takeProfit == entry - u * 3.0;
  }

  /** The stop sits at the entry exactly when the ATR is zero (for a non-zero entry). */
  lemma {:induction false} StopAtEntryIffFlat(side: Direction, entry: real, atr: real)
    requires entry != 0.0
    ensures AtrLevels(side, entry, atr).stopLoss == entry <==> atr == 0.0
  {
    var u := entry * atr;
    assert AtrLevels(side, entry, atr).stopLoss == entry - u * 1.5 || AtrLevels(side, entry, atr).stopLoss == entry + u * 1.5;
    assert u == 0.0 <==> atr == 0.0;
  }

  /**
   * `_calculate_atr`: the mean true range over the candles after the first, as a fraction of
   * the last close; 0.02 when there is no true range or the last close is zero (the
   * divisions raise and the default is returned).
   */
  function AtrFraction(ks: seq<Candle>): (r: real)
    ensures |ks| <= 1 || ks[|ks| - 1].close == 0.0 ==> r == 0.02
    ensures |ks| > 1 && ks[|ks| - 1].close > 0.0 ==> r >= 0.0
  {
    if |ks| <= 1 || ks[|ks| - 1].close == 0.0 then 0.02
    else
      var trs := SignalProcessor.TrueRanges(ks);
      var c := ks[|ks| - 1].close;
      var r := Sum(trs) / |trs| as real / c;
      assert c > 0.0 ==> r >= 0.0 by {
        if c > 0.0 {
          SumNonNegative(trs);
          MeanOverPositive(Sum(trs), |trs| as real, c);
        }
      }
      r
  }

  /** A non-negative total, averaged and divided by a positive number, is non-negative, and zero only for a zero total. */
  lemma {:induction false} MeanOverPositive(total: real, n: real, c: real)
    requires total >= 0.0 && n > 0.0 && c > 0.0
    ensures total / n / c >= 0.0
    ensures total / n / c == 0.0 <==> total == 0.0
  {
    DivNonNegative(total, n);
    DivNonNegative(total / n, c);
  }

  /** With a positive last close, the ATR fraction is zero exactly when every candle is flat at the previous close. */
  lemma {:induction false} AtrFractionZeroIffFlat(ks: seq<Candle>)
    requires |ks| > 1 && ks[|ks| - 1].close > 0.0
    ensures AtrFraction(ks) == 0.0 <==>
      forall i :: 1 <= i < |ks| ==> ks[i].high == ks[i - 1].close && ks[i].low == ks[i - 1].close
  {
    var trs := SignalProcessor.TrueRanges(ks);
    var c := ks[|ks| - 1].close;
    assert AtrFraction(ks) == Sum(trs) / |trs| as real / c;
    forall i | 1 <= i < |ks|
      ensures trs[i - 1] == 0.0 <==> ks[i].high == ks[i - 1].close && ks[i].low == ks[i - 1].close
    {
      SignalProcessor.TrueRangeZero(ks[i - 1].close, ks[i]);
    }
    SumNonNegative(trs);
    MeanOverPositive(Sum(trs), |trs| as real, c);
    if Sum(trs) != 0.0 {
      var j :| 0 <= j < |trs| && trs[j] != 0.0;
      assert trs[(j + 1) - 1] != 0.0;
    }
  }

  /** Total long (bid) volume and total short (ask) volume of the zones. */
  function LongVolumes(zs: seq<VolumeZone>): (vs: seq<real>)
    ensures |vs| == |zs| && forall i :: 0 <= i < |zs| ==> vs[i] == zs[i].longVolume
  {
    seq(|zs|, i requires 0 <= i < |zs| => zs[i].longVolume)
  }

  function ShortVolumes(zs: seq<VolumeZone>): (vs: seq<real>)
    ensures |vs| == |zs| && forall i :: 0 <= i < |zs| ==> vs[i] == zs[i].shortVolume
  {
    seq(|zs|, i requires 0 <= i < |zs| => zs[i].shortVolume)
  }

  /** `_calculate_volume_ratio`: long volume over short volume, the latter floored at 1e-6 so it never divides by zero. */
  function VolumeRatio(zs: seq<VolumeZone>): real {
    var short := Sum(ShortVolumes(zs));
    Sum(LongVolumes(zs)) / (if short > ShortVolumeFloor then short else ShortVolumeFloor)
  }

  /**
   * Over valid zones the ratio is non-negative, and once the short volume reaches the floor
   * it is exactly long volume over short volume.
   */
  lemma {:induction false} VolumeRatioOfValidZones(zs: seq<VolumeZone>)
    requires forall i :: 0 <= i < |zs| ==> zs[i].Valid()
    ensures VolumeRatio(zs) >= 0.0
    ensures Sum(ShortVolumes(zs)) >= ShortVolumeFloor ==> VolumeRatio(zs) * Sum(ShortVolumes(zs)) == Sum(LongVolumes(zs))
  {
    SumNonNegative(LongVolumes(zs));
    SumNonNegative(ShortVolumes(zs));
    var short := Sum(ShortVolumes(zs));
    DivNonNegative(Sum(LongVolumes(zs)), if short > ShortVolumeFloor then short else ShortVolumeFloor);
  }

  function Clamp(c: real): (r: real)
    ensures 0.0 <= r <= 0.95
  {
    if c < 0.0 then 0.0 else if c > 0.95 then 0.95 else c
  }

  /** The RSI part of the confidence: room below 65 for LONG, room above 35 (out of 65) for SHORT. */
  function RsiConfidence(side: Direction, rsi5: real, rsi15: real): real {
    match side
    case Long => (AccumulationRsiMax - SignalProcessor.Max(rsi5, rsi15)) / AccumulationRsiMax
    case Short => (SignalProcessor.Min(rsi5, rsi15) - DistributionRsiMin) / (100.0 - DistributionRsiMin)
  }

  /** The volume part: the long/short ratio (its inverse for SHORT) over 10, capped at 1. */
  function VolumeConfidence(side: Direction, ratio: real): real
    requires side == Short ==> ratio != 0.0
  {
    match side
    case Long => SignalProcessor.Min(ratio / MaxLsRatio, 1.0)
    case Short => SignalProcessor.Min(1.0 / ratio / MaxLsRatio, 1.0)
  }

  /**
   * `_calculate_signal_confidence`: 0.5 plus a quarter of the RSI part plus a quarter of
   * the volume part, clamped to [0, 0.95]; a SHORT with a zero ratio divides by zero and
   * gets the default 0.5.
   */
  function SignalConfidence(side: Direction, rsi5: real, rsi15: real, ratio: real): (c: real)
    ensures 0.0 <= c <= 0.95
  {
    if side == Short && ratio == 0.0 then 0.5
    else Clamp(0.5 + RsiConfidence(side, rsi5, rsi15) * 0.25 + VolumeConfidence(side, ratio) * 0.25)
  }

  /**
   * A LONG signal is at least as confident when its higher RSI is lower and its volume ratio
   * larger.
   */
  lemma {:induction false} LongConfidenceMonotone(rsi5: real, rsi15: real, ratio: real, rsi5': real, rsi15': real, ratio': real)
    requires SignalProcessor.Max(rsi5, rsi15) <= SignalProcessor.Max(rsi5', rsi15') && ratio >= ratio'
    ensures SignalConfidence(Long, rsi5, rsi15, ratio) >= SignalConfidence(Long, rsi5', rsi15', ratio')
  {
    assert RsiConfidence(Long, rsi5, rsi15) >= RsiConfidence(Long, rsi5', rsi15');
    assert VolumeConfidence(Long, ratio) >= VolumeConfidence(Long, ratio');
  }

  // ---------------------------------------------------------------------------
  // Signal generation

  /**
   * `_generate_signal`: ATR levels, volume ratio and confidence, then `SignalData`
   * validation. Building the reason text divides by the entry and by the stop's distance
   * from it, so a zero entry or a stop at the entry raises, and no signal is returned.
   */
  function GenerateSignal(side: Direction, entry: real, rsi5: real, rsi15: real, zones: seq<VolumeZone>, atr: real): (r: Option<SignalData>)
    ensures r.Some? ==> r.value.side == side && r.value.entry == entry
    ensures r.Some? ==> r.value.entry > 0.0 && r.value.stopLoss > 0.0 && r.value.takeProfit > 0.0
    ensures r.Some? ==> 0.0 <= r.value.confidence <= 0.95
  {
    var l := AtrLevels(side, entry, atr);
    var confidence := SignalConfidence(side, rsi5, rsi15, VolumeRatio(zones));
    if entry == 0.0 || l.stopLoss - entry == 0.0 then None
    else SignalDataOf(DirectionName(side), entry, l.stopLoss, l.takeProfit, confidence)
  }

  /** A positive entry with a positive ATR gives a signal when its levels stay positive, with both levels on the right sides. */
  lemma {:induction false} GeneratedSignalOrdered(side: Direction, entry: real, rsi5: real, rsi15: real, zones: seq<VolumeZone>, atr: real)
    requires entry > 0.0 && atr > 0.0
    requires GenerateSignal(side, entry, rsi5, rsi15, zones, atr).Some?
    ensures var s := GenerateSignal(side, entry, rsi5, rsi15, zones, atr).value;
      && (side == Long ==> s.takeProfit > s.entry > s.stopLoss)
      && (side == Short ==> s.takeProfit < s.entry < s.stopLoss)
      && s.takeProfit - s.entry == -2.0 * (s.stopLoss - s.entry)
  {
    AtrLevelsOrdered(side, entry, atr);
  }

  /** A LONG stop at or below zero fails validation: an ATR of 2/3 of the price or more gives no LONG signal. */
  lemma {:induction false} WideAtrGivesNoLong(entry: real, rsi5: real, rsi15: real, zones: seq<VolumeZone>, atr: real)
    requires entry > 0.0 && atr >= 2.0 / 3.0
    ensures GenerateSignal(Long, entry, rsi5, rsi15, zones, atr) == None
  {
    assert 1.0 - atr * 1.5 <= 0.0;
    assert entry * (1.0 - atr * 1.5) <= 0.0;
  }

  /** A flat market (zero ATR) puts the stop at the entry, and the signal is dropped. */
  lemma {:induction false} FlatMarketGivesNoSignal(side: Direction, entry: real, rsi5: real, rsi15: real, zones: seq<VolumeZone>)
    ensures GenerateSignal(side, entry, rsi5, rsi15, zones, 0.0) == None
  {
  }

  /**
   * `analyze_entry_conditions` once its inputs are fetched: any missing timeframe or an empty
   * zone map gives nothing; otherwise the RSIs of the 5m and 15m candles, the 5m MA20 and the
   * 15m MA50 feed the entry gate at the last 5m close, and a passing side generates a signal.
   */
  function AnalyzeEntryConditions(k3: seq<Candle>, k5: seq<Candle>, k15: seq<Candle>, zones: seq<VolumeZone>, atr: real): (r: Option<SignalData>)
    ensures k3 == [] || k5 == [] || k15 == [] || zones == [] ==> r == None
    ensures r.Some? ==> r.value.entry > 0.0 && r.value.stopLoss > 0.0 && r.value.takeProfit > 0.0
    ensures r.Some? ==> EntryGate(k5[|k5| - 1].close, Ma(Closes(k5), 20), Ma(Closes(k15), 50),
                                  SimpleRsi(Closes(k5), RsiPeriod), SimpleRsi(Closes(k15), RsiPeriod)) == Some(r.value.side)
  {
    if k3 == [] || k5 == [] || k15 == [] || zones == [] then None
    else
      var rsi5, rsi15 := SimpleRsi(Closes(k5), RsiPeriod), SimpleRsi(Closes(k15), RsiPeriod);
      var price := k5[|k5| - 1].close;
      match EntryGate(price, Ma(Closes(k5), 20), Ma(Closes(k15), 50), rsi5, rsi15)
      case None => None
      case Some(side) => GenerateSignal(side, price, rsi5, rsi15, zones, atr)
  }

  // ---------------------------------------------------------------------------
  // Volume zones

  /** One order-book entry: a price and a quantity. */
  datatype BookEntry = BookEntry(price: real, qty: real)

  function ZonePrices(zs: seq<VolumeZone>): (ps: seq<real>)
    ensures |ps| == |zs| && forall i :: 0 <= i < |zs| ==> ps[i] == zs[i].priceLevel
  {
    seq(|zs|, i requires 0 <= i < |zs| => zs[i].priceLevel)
  }

  /** The dict lookup `price in zones`: where the zone of a price is. */
  function ZoneIndex(zs: seq<VolumeZone>, price: real): (r: Option<nat>)
    ensures r.Some? ==> r.value < |zs| && zs[r.value].priceLevel == price
    ensures r.None? ==> price !in ZonePrices(zs)
  {
    if zs == [] then None
    else if zs[|zs| - 1].priceLevel == price then Some(|zs| - 1)
    else
      var r := ZoneIndex(zs[..|zs| - 1], price);
      assert ZonePrices(zs) == ZonePrices(zs[..|zs| - 1]) + [zs[|zs| - 1].priceLevel];
      r
  }

  /**
   * One entry of the order book into the zone map: an existing zone at that price gets the
   * quantity (bids on the long side, asks on the short side) and one more order; a new
   * price opens a zone, whose validation fails for a non-positive price or a negative
   * quantity (then the whole analysis fails).
   */
  function Place(zs: seq<VolumeZone>, e: BookEntry, isBid: bool): Option<seq<VolumeZone>> {
    match ZoneIndex(zs, e.price)
    case Some(i) =>
      var z := zs[i];
      var z' := if isBid then z.(longVolume := z.longVolume + e.qty, orderCount := z.orderCount + 1)
                else z.(shortVolume := z.shortVolume + e.qty, orderCount := z.orderCount + 1);
      Some(zs[i := z'])
    case None =>
      var z := if isBid then VolumeZone(e.price, e.qty, 0.0, 1) else VolumeZone(e.price, 0.0, e.qty, 1);
      if z.Valid() then Some(zs + [z]) else None
  }

  /** The entries of one side of the book placed in order, failing as soon as one placement fails. */
  function PlaceAll(zs: seq<VolumeZone>, es: seq<BookEntry>, isBid: bool): Option<seq<VolumeZone>> {
    if es == [] then Some(zs)
    else
      match PlaceAll(zs, es[..|es| - 1], isBid)
      case None => None
      case Some(zs') => Place(zs', es[|es| - 1], isBid)
  }

  /** The zones that have at least `MinOrderCount` orders, in order. */
  function KeepCounted(zs: seq<VolumeZone>): seq<VolumeZone> {
    if zs == [] then []
    else if zs[|zs| - 1].orderCount >= MinOrderCount then KeepCounted(zs[..|zs| - 1]) + [zs[|zs| - 1]]
    else KeepCounted(zs[..|zs| - 1])
  }

  /** `_analyze_volume_zones` as a value: asks first, then bids, then the order-count filter; nothing on failure. */
  function VolumeZonesOf(asks: seq<BookEntry>, bids: seq<BookEntry>): seq<VolumeZone> {
    match PlaceAll([], asks, false)
    case None => []
    case Some(za) =>
      match PlaceAll(za, bids, true)
      case None => []
      case Some(zs) => KeepCounted(zs)
  }

  /** How many entries of one book side are at a price, and their total quantity. */
  function CountAt(es: seq<BookEntry>, p: real): nat {
    if es == [] then 0
    else CountAt(es[..|es| - 1], p) + (if es[|es| - 1].price == p then 1 else 0)
  }

  function QtyAt(es: seq<BookEntry>, p: real): real {
    if es == [] then 0.0
    else QtyAt(es[..|es| - 1], p) + (if es[|es| - 1].price == p then es[|es| - 1].qty else 0.0)
  }

  lemma {:induction false} AtSnoc(es: seq<BookEntry>, e: BookEntry, p: real)
    ensures CountAt(es + [e], p) == CountAt(es, p) + (if e.price == p then 1 else 0)
    ensures QtyAt(es + [e], p) == QtyAt(es, p) + (if e.price == p then e.qty else 0.0)
  {
    assert (es + [e])[..|es|] == es;
  }

  /** Prices of a sequence of book entries. */
  function EntryPrices(es: seq<BookEntry>): (ps: seq<real>)
    ensures |ps| == |es| && forall i :: 0 <= i < |es| ==> ps[i] == es[i].price
  {
    seq(|es|, i requires 0 <= i < |es| => es[i].price)
  }

  /**
   * The zones tally the asks and bids seen so far: one zone per distinct price, with a
   * positive price and at least one order; its order count is the number of entries at its
   * price, its short volume the ask quantity there and its long volume the bid quantity;
   * and every entry's price has a zone.
   */
  ghost predicate Tally(zs: seq<VolumeZone>, asks: seq<BookEntry>, bids: seq<BookEntry>) {
    && (forall i, j :: 0 <= i < j < |zs| ==> zs[i].priceLevel != zs[j].priceLevel)
    && (forall i :: 0 <= i < |zs| ==> zs[i].priceLevel > 0.0 && zs[i].orderCount >= 1)
    && (forall i :: 0 <= i < |zs| ==> zs[i].orderCount == CountAt(asks, zs[i].priceLevel) + CountAt(bids, zs[i].priceLevel))
    && (forall i :: 0 <= i < |zs| ==> zs[i].shortVolume == QtyAt(asks, zs[i].priceLevel))
    && (forall i :: 0 <= i < |zs| ==> zs[i].longVolume == QtyAt(bids, zs[i].priceLevel))
    && (forall p :: p in EntryPrices(asks) || p in EntryPrices(bids) ==> p in ZonePrices(zs))
  }

  /** A price without a zone has no entries yet. */
  lemma {:induction false} NoZoneNoEntries(zs: seq<VolumeZone>, asks: seq<BookEntry>, bids: seq<BookEntry>, p: real)
    requires Tally(zs, asks, bids) && p !in ZonePrices(zs)
    ensures CountAt(asks, p) == 0 && CountAt(bids, p) == 0 && QtyAt(asks, p) == 0.0 && QtyAt(bids, p) == 0.0
  {
    NoEntriesAt(asks, p);
    NoEntriesAt(bids, p);
  }

  lemma {:induction false} NoEntriesAt(es: seq<BookEntry>, p: real)
    requires p !in EntryPrices(es)
    ensures CountAt(es, p) == 0 && QtyAt(es, p) == 0.0
  {
    if es != [] {
      var es' := es[..|es| - 1];
      assert EntryPrices(es) == EntryPrices(es') + [es[|es| - 1].price];
      NoEntriesAt(es', p);
    }
  }

  /** Counting and summing one more entry at the end, at every price. */
  lemma {:induction false} AllAtSnoc(es: seq<BookEntry>, e: BookEntry)
    ensures forall p :: CountAt(es + [e], p) == CountAt(es, p) + (if e.price == p then 1 else 0)
    ensures forall p :: QtyAt(es + [e], p) == QtyAt(es, p) + (if e.price == p then e.qty else 0.0)
    ensures EntryPrices(es + [e]) == EntryPrices(es) + [e.price]
  {
    forall p ensures CountAt(es + [e], p) == CountAt(es, p) + (if e.price == p then 1 else 0)
                  && QtyAt(es + [e], p) == QtyAt(es, p) + (if e.price == p then e.qty else 0.0) {
      AtSnoc(es, e, p);
    }
  }

  /** Placing an ask keeps the tally, with the ask added. */
  lemma {:induction false} PlaceAskTally(zs: seq<VolumeZone>, asks: seq<BookEntry>, bids: seq<BookEntry>, e: BookEntry)
    requires Tally(zs, asks, bids) && Place(zs, e, false).Some?
    ensures Tally(Place(zs, e, false).value, asks + [e], bids)
  {
    match ZoneIndex(zs, e.price)
    case Some(k) => PlaceAskExisting(zs, asks, bids, e, k);
    case None => PlaceAskNew(zs, asks, bids, e);
  }

  lemma {:induction false} PlaceAskExisting(zs: seq<VolumeZone>, asks: seq<BookEntry>, bids: seq<BookEntry>, e: BookEntry, k: nat)
    requires Tally(zs, asks, bids) && ZoneIndex(zs, e.price) == Some(k)
    ensures Place(zs, e, false).Some? && Tally(Place(zs, e, false).value, asks + [e], bids)
  {
    AllAtSnoc(asks, e);
    var z := zs[k];
    var zs' := zs[k := z.(shortVolume := z.shortVolume + e.qty, orderCount := z.orderCount + 1)];
    assert Place(zs, e, false) == Some(zs');
    forall i | 0 <= i < |zs'|
      ensures zs'[i].priceLevel == zs[i].priceLevel
      ensures i != k ==> zs'[i] == zs[i] && zs[i].priceLevel != e.price
    {
      if i != k {
        assert zs[i].priceLevel != zs[k].priceLevel;
      }
    }
    assert ZonePrices(zs') == ZonePrices(zs);
  }

  lemma {:induction false} PlaceAskNew(zs: seq<VolumeZone>, asks: seq<BookEntry>, bids: seq<BookEntry>, e: BookEntry)
    requires Tally(zs, asks, bids) && ZoneIndex(zs, e.price) == None && Place(zs, e, false).Some?
    ensures Tally(Place(zs, e, false).value, asks + [e], bids)
  {
    AllAtSnoc(asks, e);
    var zs' := Place(zs, e, false).value;
    NoZoneNoEntries(zs, asks, bids, e.price);
    assert ZonePrices(zs') == ZonePrices(zs) + [e.price];
  }

  /** Placing a bid keeps the tally, with the bid added. */
  lemma {:induction false} PlaceBidTally(zs: seq<VolumeZone>, asks: seq<BookEntry>, bids: seq<BookEntry>, e: BookEntry)
    requires Tally(zs, asks, bids) && Place(zs, e, true).Some?
    ensures Tally(Place(zs, e, true).value, asks, bids + [e])
  {
    match ZoneIndex(zs, e.price)
    case Some(k) => PlaceBidExisting(zs, asks, bids, e, k);
    case None => PlaceBidNew(zs, asks, bids, e);
  }

  lemma {:induction false} PlaceBidExisting(zs: seq<VolumeZone>, asks: seq<BookEntry>, bids: seq<BookEntry>, e: BookEntry, k: nat)
    requires Tally(zs, asks, bids) && ZoneIndex(zs, e.price) == Some(k)
    ensures Place(zs, e, true).Some? && Tally(Place(zs, e, true).value, asks, bids + [e])
  {
    AllAtSnoc(bids, e);
    var z := zs[k];
    var zs' := zs[k := z.(longVolume := z.longVolume + e.qty, orderCount := z.orderCount + 1)];
    assert Place(zs, e, true) == Some(zs');
    forall i | 0 <= i < |zs'|
      ensures zs'[i].priceLevel == zs[i].priceLevel
      ensures i != k ==> zs'[i] == zs[i] && zs[i].priceLevel != e.price
    {
      if i != k {
        assert zs[i].priceLevel != zs[k].priceLevel;
      }
    }
    assert ZonePrices(zs') == ZonePrices(zs);
  }

  lemma {:induction false} PlaceBidNew(zs: seq<VolumeZone>, asks: seq<BookEntry>, bids: seq<BookEntry>, e: BookEntry)
    requires Tally(zs, asks, bids) && ZoneIndex(zs, e.price) == None && Place(zs, e, true).Some?
    ensures Tally(Place(zs, e, true).value, asks, bids + [e])
  {
    AllAtSnoc(bids, e);
    var zs' := Place(zs, e, true).value;
    NoZoneNoEntries(zs, asks, bids, e.price);
    assert ZonePrices(zs') == ZonePrices(zs) + [e.price];
  }

  lemma {:induction false} PlaceAllAsksTally(asks: seq<BookEntry>)
    requires PlaceAll([], asks, false).Some?
    ensures Tally(PlaceAll([], asks, false).value, asks, [])
  {
    if asks == [] {
    } else {
      var a', last := asks[..|asks| - 1], asks[|asks| - 1];
      assert a' + [last] == asks;
      var prev := PlaceAll([], a', false);
      assert prev.Some? && PlaceAll([], asks, false) == Place(prev.value, last, false);
      PlaceAllAsksTally(a');
      PlaceAskTally(prev.value, a', [], last);
    }
  }

  lemma {:induction false} PlaceAllBidsTally(za: seq<VolumeZone>, asks: seq<BookEntry>, bids: seq<BookEntry>)
    requires Tally(za, asks, []) && PlaceAll(za, bids, true).Some?
    ensures Tally(PlaceAll(za, bids, true).value, asks, bids)
  {
    if bids == [] {
    } else {
      var b', last := bids[..|bids| - 1], bids[|bids| - 1];
      assert b' + [last] == bids;
      var prev := PlaceAll(za, b', true);
      assert prev.Some? && PlaceAll(za, bids, true) == Place(prev.value, last, true);
      PlaceAllBidsTally(za, asks, b');
      PlaceBidTally(prev.value, asks, b', last);
    }
  }

  /** Every zone has an order, so the order-count filter keeps them all. */
  lemma {:induction false} KeepCountedKeepsAll(zs: seq<VolumeZone>)
    requires forall i :: 0 <= i < |zs| ==> zs[i].orderCount >= MinOrderCount
    ensures KeepCounted(zs) == zs
  {
    if zs != [] {
      KeepCountedKeepsAll(zs[..|zs| - 1]);
    }
  }

  /**
   * A non-empty zone map has one zone per distinct price, each counting the entries at its
   * price, with the ask quantity there as short volume and the bid quantity as long volume,
   * and a zone for every entry's price.
   */
  lemma {:induction false} VolumeZonesTally(asks: seq<BookEntry>, bids: seq<BookEntry>)
    requires VolumeZonesOf(asks, bids) != []
    ensures Tally(VolumeZonesOf(asks, bids), asks, bids)
  {
    PlaceAllAsksTally(asks);
    var za := PlaceAll([], asks, false).value;
    PlaceAllBidsTally(za, asks, bids);
    KeepCountedKeepsAll(PlaceAll(za, bids, true).value);
  }

  /** A failed placement stays failed. */
  lemma {:induction false} PlaceAllFailed(zs: seq<VolumeZone>, es: seq<BookEntry>, isBid: bool, n: nat)
    requires n <= |es| && PlaceAll(zs, es[..n], isBid) == None
    ensures PlaceAll(zs, es, isBid) == None
  {
    if n < |es| {
      assert es[..|es| - 1][..n] == es[..n];
      PlaceAllFailed(zs, es[..|es| - 1], isBid, n);
    } else {
      assert es[..n] == es;
    }
  }

  /** Placing entries keeps every zone price positive. */
  lemma {:induction false} PlaceAllPositive(zs: seq<VolumeZone>, es: seq<BookEntry>, isBid: bool)
    requires forall i :: 0 <= i < |zs| ==> zs[i].priceLevel > 0.0
    requires PlaceAll(zs, es, isBid).Some?
    ensures forall i :: 0 <= i < |PlaceAll(zs, es, isBid).value| ==> PlaceAll(zs, es, isBid).value[i].priceLevel > 0.0
  {
    if es != [] {
      PlaceAllPositive(zs, es[..|es| - 1], isBid);
    }
  }

  /** An entry with a non-positive price can never open its zone, so the whole analysis yields nothing. */
  lemma {:induction false} NonPositivePriceEmptiesZones(asks: seq<BookEntry>, bids: seq<BookEntry>, e: BookEntry)
    requires e in asks || e in bids
    requires e.price <= 0.0
    ensures VolumeZonesOf(asks, bids) == []
  {
    if e in asks {
      var n :| 0 <= n < |asks| && asks[n] == e;
      PlaceAllFailsAt([], asks, false, n);
    } else if PlaceAll([], asks, false).Some? {
      var za := PlaceAll([], asks, false).value;
      PlaceAllPositive([], asks, false);
      var n :| 0 <= n < |bids| && bids[n] == e;
      PlaceAllFailsAt(za, bids, true, n);
    }
  }

  lemma {:induction false} PlaceAllFailsAt(zs: seq<VolumeZone>, es: seq<BookEntry>, isBid: bool, n: nat)
    requires forall i :: 0 <= i < |zs| ==> zs[i].priceLevel > 0.0
    requires n < |es| && es[n].price <= 0.0
    ensures PlaceAll(zs, es, isBid) == None
  {
    assert es[..n + 1][..n] == es[..n];
    if PlaceAll(zs, es[..n], isBid).Some? {
      PlaceAllPositive(zs, es[..n], isBid);
      var zs' := PlaceAll(zs, es[..n], isBid).value;
      assert es[n].price !in ZonePrices(zs');
    }
    PlaceAllFailed(zs, es, isBid, n + 1);
  }

  /** With positive prices and non-negative quantities throughout, every entry is tallied. */
  lemma {:induction false} ValidEntriesPlace(zs: seq<VolumeZone>, es: seq<BookEntry>, isBid: bool)
    requires forall i :: 0 <= i < |es| ==> es[i].price > 0.0 && es[i].qty >= 0.0
    ensures PlaceAll(zs, es, isBid).Some?
  {
    if es != [] {
      ValidEntriesPlace(zs, es[..|es| - 1], isBid);
    }
  }

  /** One side of the book placed into the zone map in order, as `_analyze_volume_zones` loops over it. */
  method PlaceSide(zones: seq<VolumeZone>, es: seq<BookEntry>, isBid: bool) returns (r: Option<seq<VolumeZone>>)
    ensures r == PlaceAll(zones, es, isBid)
  {
    var zs := zones;
    var i := 0;
    while i < |es|
      invariant 0 <= i <= |es|
      invariant PlaceAll(zones, es[..i], isBid) == Some(zs)
    {
      assert es[..i + 1][..i] == es[..i];
      var price, qty := es[i].price, es[i].qty;
      match ZoneIndex(zs, price) {
        case Some(k) =>
          if isBid {
            zs := zs[k := zs[k].(longVolume := zs[k].longVolume + qty, orderCount := zs[k].orderCount + 1)];
          } else {
            zs := zs[k := zs[k].(shortVolume := zs[k].shortVolume + qty, orderCount := zs[k].orderCount + 1)];
          }
        case None =>
          var z := if isBid then VolumeZone(price, qty, 0.0, 1) else VolumeZone(price, 0.0, qty, 1);
          if !z.Valid() {
            PlaceAllFailed(zones, es, isBid, i + 1);
            return None;
          }
          zs := zs + [z];
      }
      i := i + 1;
    }
    assert es[..|es|] == es;
    r := Some(zs);
  }

  /** `_analyze_volume_zones` once the order book is fetched: asks, then bids, then the filter; nothing on a failed validation. */
  method AnalyzeVolumeZones(asks: seq<BookEntry>, bids: seq<BookEntry>) returns (zones: seq<VolumeZone>)
    ensures zones == VolumeZonesOf(asks, bids)
  {
    var za := PlaceSide([], asks, false);
    if za.None? {
      return [];
    }
    var zs := PlaceSide(za.value, bids, true);
    if zs.None? {
      return [];
    }
    zones := [];
    var i := 0;
    while i < |zs.value|
      invariant 0 <= i <= |zs.value|
      invariant zones == KeepCounted(zs.value[..i])
    {
      assert zs.value[..i + 1][..i] == zs.value[..i];
      if zs.value[i].orderCount >= MinOrderCount {
        zones := zones + [zs.value[i]];
      }
      i := i + 1;
    }
    assert zs.value[..|zs.value|] == zs.value;
  }
}
