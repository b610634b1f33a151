/**
 * The trading bot's market scan: the indicators it computes per symbol (RSI over the last
 * RSI_PERIOD moves and the last candle's volume against the 20-candle mean), the fixed
 * percentage signal it derives from them, and the batching of the pair list into chunks.
 */
module Scanner {
  import opened Wrappers
  import opened Candles
  import opened Indicators
  import opened Constants

  /** The indicator dict of a symbol. */
  datatype ScanIndicators = ScanIndicators(rsi: real, volumeRatio: real)

  /** The last candle's volume relative to the mean volume of the last 20 candles (itself included). */
  function VolumeRatio(ks: seq<Candle>): real
    requires |ks| > 0 && Sum(TailN(Volumes(ks), 20)) != 0.0
  {
    ks[|ks| - 1].volume / Sum(TailN(Volumes(ks), 20)) * 20.0
  }

  /**
   * `calculate_indicators`: no indicators for no candles, nor when the last 20 candles hold
   * no volume (the division fails). The RSI averages divide the sums of the last RSI_PERIOD
   * gains and losses by RSI_PERIOD, however many moves there are.
   */
  function ScanIndicatorsOf(ks: seq<Candle>): (r: Option<ScanIndicators>)
    ensures ks == [] ==> r == None
    ensures r.Some? ==> 0.0 <= r.value.rsi <= 100.0
  {
    if ks == [] || Sum(TailN(Volumes(ks), 20)) == 0.0 then None
    else
      var ds := Diffs(Closes(ks));
      TailNonNegative(Gains(ds), RsiPeriod);
      TailNonNegative(Losses(ds), RsiPeriod);
      DivNonNegative(Sum(TailN(Gains(ds), RsiPeriod)), RsiPeriod as real);
      DivNonNegative(Sum(TailN(Losses(ds), RsiPeriod)), RsiPeriod as real);
      var rsi := RsiFromAverages(Sum(TailN(Gains(ds), RsiPeriod)) / RsiPeriod as real,
                                 Sum(TailN(Losses(ds), RsiPeriod)) / RsiPeriod as real);
      Some(ScanIndicators(rsi, VolumeRatio(ks)))
  }

  /**
   * With more than RSI_PERIOD candles the scanner's RSI is the simple RSI; with fewer it
   * still averages over RSI_PERIOD, so it is not the 50 the other RSIs report.
   */
  lemma {:induction false} ScanRsiIsSimpleRsi(ks: seq<Candle>)
    requires |ks| > RsiPeriod && ScanIndicatorsOf(ks).Some?
    ensures ScanIndicatorsOf(ks).value.rsi == SimpleRsi(Closes(ks), RsiPeriod)
  {
  }

  /** A single candle has no move, so no loss, and the scanner reports an RSI of 100. */
  lemma {:induction false} ScanRsiOfOneCandle(k: Candle)
    requires k.volume != 0.0
    ensures ScanIndicatorsOf([k]) == Some(ScanIndicators(100.0, 20.0))
  {
    assert Volumes([k]) == [k.volume];
    assert Sum([k.volume]) == k.volume by {
      assert [k.volume][..0] == [];
    }
    assert Diffs(Closes([k])) == [];
    assert TailN(Gains(Diffs(Closes([k]))), RsiPeriod) == [];
    assert k.volume / k.volume * 20.0 == 20.0;
  }

  /** The volume ratio is the last volume over the mean of the last 20 volumes. */
  lemma {:induction false} VolumeRatioIsRelativeToMean(ks: seq<Candle>)
    requires |ks| > 0 && Sum(TailN(Volumes(ks), 20)) != 0.0
    ensures VolumeRatio(ks) == ks[|ks| - 1].volume / (Sum(TailN(Volumes(ks), 20)) / 20.0)
  {
    var v, s := ks[|ks| - 1].volume, Sum(TailN(Volumes(ks), 20));
    assert v / s * 20.0 == v / (s / 20.0) by {
      assert (v / s) * s == v;
      assert (v / (s / 20.0)) * (s / 20.0) == v;
    }
  }

  /** The loop of `calculate_indicators` that splits each close-to-close move into a gain and a loss (a zero move is a zero gain). */
  method SplitMoves(closes: seq<real>) returns (gains: seq<real>, losses: seq<real>)
    ensures gains == Gains(Diffs(closes)) && losses == Losses(Diffs(closes))
  {
    gains, losses := [], [];
    if closes == [] {
      return;
    }
    var i := 1;
    while i < |closes|
      invariant 1 <= i <= |closes|
      invariant |gains| == |losses| == i - 1
      invariant forall j :: 0 <= j < i - 1 ==> gains[j] == Gain(closes[j + 1] - closes[j])
      invariant forall j :: 0 <= j < i - 1 ==> losses[j] == Loss(closes[j + 1] - closes[j])
    {
      var change := closes[i] - closes[i - 1];
      if change >= 0.0 {
        gains := gains + [change];
        losses := losses + [0.0];
      } else {
        gains := gains + [0.0];
        losses := losses + [Abs(change)];
      }
      i := i + 1;
    }
  }

  /** `calculate_indicators`: the moves split into gains and losses, then the averages and the volume ratio. */
  method CalculateIndicators(ks: seq<Candle>) returns (r: Option<ScanIndicators>)
    ensures r == ScanIndicatorsOf(ks)
  {
    if ks == [] {
      return None;
    }
    var gains, losses := SplitMoves(Closes(ks));
    var avgGain := Sum(TailN(gains, RsiPeriod)) / RsiPeriod as real;
    var avgLoss := Sum(TailN(losses, RsiPeriod)) / RsiPeriod as real;
    TailNonNegative(gains, RsiPeriod);
    TailNonNegative(losses, RsiPeriod);
    DivNonNegative(Sum(TailN(gains, RsiPeriod)), RsiPeriod as real);
    DivNonNegative(Sum(TailN(losses, RsiPeriod)), RsiPeriod as real);
    var rsi := RsiFromAverages(avgGain, avgLoss);
    var volumeSum := Sum(TailN(Volumes(ks), 20));
    if volumeSum == 0.0 {
      return None;
    }
    var volumeRatio := ks[|ks| - 1].volume / volumeSum * 20.0;
    assert volumeRatio == VolumeRatio(ks);
    r := Some(ScanIndicators(rsi, volumeRatio));
  }

  /** A scan signal with its fixed percentage levels and confidence. */
  datatype ScanSignal = ScanSignal(side: Direction, entry: real, takeProfit: real, stopLoss: real, confidence: real)

  /** The volume ratio a signal needs. */
  const ScanVolumeRatioMin: real := 1.15

  /**
   * `analyze_symbol`: LONG on an oversold RSI with a volume ratio above 1.15, 2% target and
   * 1% stop; otherwise SHORT on an overbought RSI with the same volume condition, mirrored.
   * Entry is the last close and confidence is always 0.55.
   */
  function AnalyzeSymbol(ks: seq<Candle>, indicators: Option<ScanIndicators>): (r: Option<ScanSignal>)
    ensures ks == [] || indicators == None ==> r == None
    ensures r.Some? ==> r.value.entry == ks[|ks| - 1].close && r.value.confidence == 0.55
  {
    if ks == [] || indicators == None then None
    else
      var rsi, ratio := indicators.value.rsi, indicators.value.volumeRatio;
      var price := ks[|ks| - 1].close;
      if rsi < RsiOversold && ratio > ScanVolumeRatioMin then
        Some(ScanSignal(Long, price, price * 1.02, price * 0.99, 0.55))
      else if rsi > RsiOverbought && ratio > ScanVolumeRatioMin then
        Some(ScanSignal(Short, price, price * 0.98, price * 1.01, 0.55))
      else None
  }

  /**
   * Which side fires: LONG exactly on an oversold RSI with enough volume, SHORT exactly on
   * an overbought one; never both, since the RSI cannot be both.
   */
  lemma {:induction false} AnalyzeSymbolSides(ks: seq<Candle>, ind: ScanIndicators)
    requires ks != []
    ensures AnalyzeSymbol(ks, Some(ind)).Some? && AnalyzeSymbol(ks, Some(ind)).value.side == Long <==>
      ind.rsi < RsiOversold && ind.volumeRatio > ScanVolumeRatioMin
    ensures AnalyzeSymbol(ks, Some(ind)).Some? && AnalyzeSymbol(ks, Some(ind)).value.side == Short <==>
      ind.rsi > RsiOverbought && ind.volumeRatio > ScanVolumeRatioMin
  {
  }

  /** For a positive price the levels lie on the trade's side: tp > entry > sl for LONG, tp < entry < sl for SHORT. */
  lemma {:induction false} ScanSignalLevelsOrdered(ks: seq<Candle>, ind: ScanIndicators)
    requires ks != [] && ks[|ks| - 1].close > 0.0 && AnalyzeSymbol(ks, Some(ind)).Some?
    ensures var s := AnalyzeSymbol(ks, Some(ind)).value;
      && (s.side == Long ==> s.takeProfit > s.entry > s.stopLoss)
      && (s.side == Short ==> s.takeProfit < s.entry < s.stopLoss)
  {
  }

  /** All chunks flattened back into one list. */
  function Flatten<T>(chunks: seq<seq<T>>): seq<T> {
    if chunks == [] then [] else Flatten(chunks[..|chunks| - 1]) + chunks[|chunks| - 1]
  }

  lemma {:induction false} FlattenSnoc<T>(chunks: seq<seq<T>>, c: seq<T>)
    ensures Flatten(chunks + [c]) == Flatten(chunks) + c
  {
    assert (chunks + [c])[..|chunks|] == chunks;
  }

  lemma {:induction false} FlattenCons<T>(c: seq<T>, chunks: seq<seq<T>>)
    ensures Flatten([c] + chunks) == c + Flatten(chunks)
    decreases |chunks|
  {
    if chunks == [] {
      assert [c] + chunks == [] + [c];
      FlattenSnoc([], c);
    } else {
      var init, last := chunks[..|chunks| - 1], chunks[|chunks| - 1];
      assert chunks == init + [last];
      assert [c] + chunks == ([c] + init) + [last];
      FlattenSnoc([c] + init, last);
      FlattenCons(c, init);
      FlattenSnoc(init, last);
    }
  }

  /** k chunks of `size` cover n items with the last one non-empty exactly when k is n / size rounded up. */
  lemma {:induction false} CeilingDivision(n: nat, size: nat, k: nat)
    requires size > 0
    requires k == 0 ==> n == 0
    requires k > 0 ==> (k - 1) * size < n <= k * size
    ensures k == (n + size - 1) / size
  {
    var q := (n + size - 1) / size;
    var r := (n + size - 1) % size;
    assert n + size - 1 == q * size + r;
    if k > 0 {
      assert (k - 1) * size + size == k * size;
      assert (k + 1) * size == k * size + size;
      MultipleBelow(k - 1, q, size);
      MultipleBelow(q, k + 1, size);
    } else {
      MultipleBelow(q, 1, size);
    }
  }

  lemma {:induction false} MultipleBelow(a: int, b: int, s: int)
    requires s > 0 && a * s < b * s
    ensures a < b
  {
  }

  /** The batch size of the scan loop. */
  const ChunkSize: nat := 10

  /** The scan loop's batches `pairs[i:i + size]` for i = 0, size, 2·size, ... below the pair count. */
  function ChunksOf<T>(pairs: seq<T>, size: nat): seq<seq<T>>
    requires size > 0
    decreases |pairs|
  {
    if pairs == [] then []
    else if |pairs| <= size then [pairs]
    else [pairs[..size]] + ChunksOf(pairs[size..], size)
  }

  /** The batches concatenate back to the pair list: every pair is scanned once, in order. */
  lemma {:induction false} ChunksFlatten<T>(pairs: seq<T>, size: nat)
    requires size > 0
    ensures Flatten(ChunksOf(pairs, size)) == pairs
    decreases |pairs|
  {
    if pairs == [] {
    } else if |pairs| <= size {
      FlattenSnoc([], pairs);
      assert [] + [pairs] == [pairs];
    } else {
      ChunksFlatten(pairs[size..], size);
      FlattenCons(pairs[..size], ChunksOf(pairs[size..], size));
      assert pairs[..size] + pairs[size..] == pairs;
    }
  }

  /** Every batch is non-empty and holds at most `size` pairs, and all but the last hold exactly `size`. */
  lemma {:induction false} ChunksShape<T>(pairs: seq<T>, size: nat)
    requires size > 0
    ensures forall c :: c in ChunksOf(pairs, size) ==> 0 < |c| <= size
    ensures forall k :: 0 <= k < |ChunksOf(pairs, size)| - 1 ==> |ChunksOf(pairs, size)[k]| == size
    decreases |pairs|
  {
    if |pairs| > size {
      var rest := ChunksOf(pairs[size..], size);
      ChunksShape(pairs[size..], size);
      var cs := [pairs[..size]] + rest;
      assert cs == ChunksOf(pairs, size);
      forall c | c in cs
        ensures 0 < |c| <= size
      {
        if c != pairs[..size] {
          assert c in rest;
        }
      }
      forall k | 0 <= k < |cs| - 1
        ensures |cs[k]| == size
      {
        if k > 0 {
          assert cs[k] == rest[k - 1];
        }
      }
    }
  }

  /** The batches number the pair count divided by `size`, rounded up. */
  lemma {:induction false} ChunksCount<T>(pairs: seq<T>, size: nat)
    requires size > 0
    ensures |ChunksOf(pairs, size)| == (|pairs| + size - 1) / size
  {
    ChunksCovers(pairs, size);
    CeilingDivision(|pairs|, size, |ChunksOf(pairs, size)|);
  }

  lemma {:induction false} ChunksCovers<T>(pairs: seq<T>, size: nat)
    requires size > 0
    ensures pairs == [] <==> ChunksOf(pairs, size) == []
    ensures pairs != [] ==> var k := |ChunksOf(pairs, size)|; (k - 1) * size < |pairs| <= k * size
    decreases |pairs|
  {
    if |pairs| > size {
      ChunksCovers(pairs[size..], size);
      var k := |ChunksOf(pairs[size..], size)|;
      assert (k + 1 - 1) * size == (k - 1) * size + size;
      assert (k + 1) * size == k * size + size;
    }
  }

  /** One batch: the batching of a suffix is its first batch followed by the batching of the rest. */
  lemma {:induction false} ChunksStep<T>(pairs: seq<T>, size: nat, i: nat, end: nat)
    requires size > 0 && i < |pairs| && end == (if i + size < |pairs| then i + size else |pairs|)
    ensures ChunksOf(pairs[i..], size) == [pairs[i..end]] + ChunksOf(pairs[end..], size)
  {
    var t := pairs[i..];
    if |t| <= size {
      assert end == |pairs| && t == pairs[i..end];
      assert pairs[end..] == [];
    } else {
      assert t[..size] == pairs[i..end];
      assert t[size..] == pairs[end..];
    }
  }

  /** The scan loop's batching, one batch per iteration. */
  method SplitIntoChunks<T>(pairs: seq<T>, size: nat) returns (chunks: seq<seq<T>>)
    requires size > 0
    ensures chunks == ChunksOf(pairs, size)
  {
    chunks := [];
    var i := 0;
    while i < |pairs|
      invariant 0 <= i <= |pairs|
      invariant chunks + ChunksOf(pairs[i..], size) == ChunksOf(pairs, size)
    {
      var end := if i + size < |pairs| then i + size else |pairs|;
      ChunksStep(pairs, size, i, end);
      assert chunks + ChunksOf(pairs[i..], size) == (chunks + [pairs[i..end]]) + ChunksOf(pairs[end..], size);
      chunks := chunks + [pairs[i..end]];
      i := end;
    }
    assert pairs[i..] == [];
  }
}
