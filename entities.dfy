/**
 * The bot's data entities: the validation each record performs when it is built (a failed
 * check raises, which the model reports as `None` or `false`), the PnL update of an open
 * trading position, and the running trading statistics with their maximum drawdown.
 */
module Entities {
  import opened Wrappers
  import opened Candles

  /** The names the records use for the two trade sides. */
  function DirectionName(d: Direction): string {
    if d == Long then "LONG" else "SHORT"
  }

  /** Parsing a side name: only the two exact names are sides. */
  function DirectionOf(name: string): (r: Option<Direction>)
    ensures r.Some? <==> name == "LONG" || name == "SHORT"
    ensures r.Some? ==> DirectionName(r.value) == name
  {
    if name == "LONG" then Some(Long) else if name == "SHORT" then Some(Short) else None
  }

  lemma {:induction false} DirectionNameRoundTrip(d: Direction)
    ensures DirectionOf(DirectionName(d)) == Some(d)
  {
  }

  /** `OrderBookLevel` accepts a positive price, a positive quantity and at least one order. */
  predicate OrderBookLevelValid(price: real, quantity: real, orders: int) {
    price > 0.0 && quantity > 0.0 && orders >= 1
  }

  /** `MarketState` accepts a positive current price and a non-negative spread. */
  predicate MarketStateValid(currentPrice: real, spread: real) {
    currentPrice > 0.0 && spread >= 0.0
  }

  /** The three market trend kinds. */
  datatype TrendType = Accumulation | Distribution | Neutral

  function TrendTypeName(t: TrendType): string {
    match t
    case Accumulation => "ACCUMULATION"
    case Distribution => "DISTRIBUTION"
    case Neutral => "NEUTRAL"
  }

  /** Parsing a trend type: only the three names are kinds. */
  function TrendTypeOf(name: string): (r: Option<TrendType>)
    ensures r.Some? <==> name in {"ACCUMULATION", "DISTRIBUTION", "NEUTRAL"}
    ensures r.Some? ==> TrendTypeName(r.value) == name
  {
    if name == "ACCUMULATION" then Some(Accumulation)
    else if name == "DISTRIBUTION" then Some(Distribution)
    else if name == "NEUTRAL" then Some(Neutral)
    else None
  }

  lemma {:induction false} TrendTypeNameRoundTrip(t: TrendType)
    ensures TrendTypeOf(TrendTypeName(t)) == Some(t)
  {
  }

  /** A market trend as the analyzer reports it (timestamp and metrics dict left out). */
  datatype MarketTrend = MarketTrend(kind: TrendType, strength: real, signal: Option<Direction>, price: real, confidence: real)

  /**
   * Building a `MarketTrend`: the type name must be one of the three kinds, the strength in
   * [0, 5] and the confidence in [0, 1]; anything else raises.
   */
  function MarketTrendOf(typeName: string, strength: real, signal: Option<Direction>, price: real, confidence: real): (r: Option<MarketTrend>)
    ensures r.Some? <==> TrendTypeOf(typeName).Some? && 0.0 <= strength <= 5.0 && 0.0 <= confidence <= 1.0
    ensures r.Some? ==> TrendTypeName(r.value.kind) == typeName && r.value.strength == strength && r.value.confidence == confidence
  {
    match TrendTypeOf(typeName)
    case None => None
    case Some(kind) =>
      if 0.0 <= strength <= 5.0 && 0.0 <= confidence <= 1.0 then Some(MarketTrend(kind, strength, signal, price, confidence))
      else None
  }

  /** A volume zone of the order book. */
  datatype VolumeZone = VolumeZone(priceLevel: real, longVolume: real, shortVolume: real, orderCount: int) {
    /** `VolumeZone` accepts a positive price, non-negative volumes and a non-negative count. */
    predicate Valid() {
      priceLevel > 0.0 && longVolume >= 0.0 && shortVolume >= 0.0 && orderCount >= 0
    }
  }

  /** A trading signal (symbol, reason, timestamp, volume and leverage left out). */
  datatype SignalData = SignalData(side: Direction, entry: real, stopLoss: real, takeProfit: real, confidence: real)

  /**
   * Building a `SignalData`: a side name and three positive prices. Where the levels lie
   * relative to the entry is not checked.
   */
  function SignalDataOf(signalType: string, entry: real, stopLoss: real, takeProfit: real, confidence: real): (r: Option<SignalData>)
    ensures r.Some? <==> DirectionOf(signalType).Some? && entry > 0.0 && stopLoss > 0.0 && takeProfit > 0.0
    ensures r.Some? ==> r.value == SignalData(DirectionOf(signalType).value, entry, stopLoss, takeProfit, confidence)
  {
    match DirectionOf(signalType)
    case None => None
    case Some(side) =>
      if entry > 0.0 && stopLoss > 0.0 && takeProfit > 0.0 then Some(SignalData(side, entry, stopLoss, takeProfit, confidence))
      else None
  }

  /** A LONG signal whose stop lies above its target is still a valid `SignalData`. */
  lemma {:induction false} SignalDataIgnoresSides()
    ensures SignalDataOf("LONG", 100.0, 110.0, 90.0, 0.5).Some?
  {
  }

  /** Order status of a trading position. */
  datatype OrderStatus = Pending | Open | Closed | Cancelled | Error

  /** +1 for a LONG position and -1 for any other position type. */
  function PnlSign(positionType: string): real {
    if positionType == "LONG" then 1.0 else -1.0
  }

  /** The percentage move from entry to price, scaled by the leverage and signed by the side. */
  function PositionPnl(positionType: string, entry: real, price: real, leverage: int): real
    requires entry != 0.0
  {
    PnlSign(positionType) * (price - entry) / entry * 100.0 * leverage as real
  }

  /** No PnL at the entry price, and a LONG and a SHORT position at the same price have opposite PnLs. */
  lemma {:induction false} PositionPnlSymmetric(entry: real, price: real, leverage: int)
    requires entry != 0.0
    ensures PositionPnl("LONG", entry, entry, leverage) == 0.0
    ensures PositionPnl("SHORT", entry, price, leverage) == -PositionPnl("LONG", entry, price, leverage)
  {
    var m := (price - entry) / entry;
    assert PositionPnl("LONG", entry, price, leverage) == m * 100.0 * leverage as real;
    assert PositionPnl("SHORT", entry, price, leverage) == (-m) * 100.0 * leverage as real;
  }

  /** With a positive entry and leverage, a LONG position gains exactly when the price is above the entry. */
  lemma {:induction false} LongPnlSign(entry: real, price: real, leverage: int)
    requires entry > 0.0 && leverage > 0
    ensures PositionPnl("LONG", entry, price, leverage) > 0.0 <==> price > entry
    ensures PositionPnl("LONG", entry, price, leverage) == 0.0 <==> price == entry
  {
    var m := (price - entry) / entry;
    assert PositionPnl("LONG", entry, price, leverage) == m * (100.0 * leverage as real);
    assert m * entry == price - entry;
  }

  /** An open trading position whose PnL follows the last price. */
  class TradingPosition {
    var positionType: string
    var entryPrice: real
    var currentPrice: real
    var stopLoss: real
    var takeProfit: real
    var volume: real
    var leverage: int
    var pnl: real
    var status: OrderStatus

    /** A new position: no PnL yet and PENDING. */
    constructor (positionType: string, entryPrice: real, currentPrice: real, stopLoss: real, takeProfit: real, volume: real, leverage: int)
      ensures this.positionType == positionType && this.entryPrice == entryPrice && this.currentPrice == currentPrice
      ensures this.stopLoss == stopLoss && this.takeProfit == takeProfit && this.volume == volume && this.leverage == leverage
      ensures pnl == 0.0 && status == Pending
    {
      this.positionType := positionType;
      this.entryPrice := entryPrice;
      this.currentPrice := currentPrice;
      this.stopLoss := stopLoss;
      this.takeProfit := takeProfit;
      this.volume := volume;
      this.leverage := leverage;
      pnl := 0.0;
      status := Pending;
    }

    /** `update_pnl`: records the price and recomputes the PnL; a zero entry price raises. */
    method UpdatePnl(price: real)
      requires entryPrice != 0.0
      modifies this
      ensures positionType == old(positionType) && entryPrice == old(entryPrice) && stopLoss == old(stopLoss)
      ensures takeProfit == old(takeProfit) && volume == old(volume) && leverage == old(leverage) && status == old(status)
      ensures currentPrice == price
      ensures pnl == PositionPnl(positionType, entryPrice, price, leverage)
    {
      currentPrice := price;
      var multiplier := if positionType == "LONG" then 1.0 else -1.0;
      pnl := multiplier * (price - entryPrice) / entryPrice * 100.0 * leverage as real;
    }
  }

  /** The winning pnls (strictly positive) of a trade history, in order. */
  function Wins(h: seq<real>): (ws: seq<real>)
    ensures forall i :: 0 <= i < |ws| ==> ws[i] > 0.0
  {
    if h == [] then []
    else if h[|h| - 1] > 0.0 then Wins(h[..|h| - 1]) + [h[|h| - 1]]
    else Wins(h[..|h| - 1])
  }

  /** The losing pnls (zero or negative) of a trade history, in order. */
  function NonWins(h: seq<real>): (ls: seq<real>)
    ensures forall i :: 0 <= i < |ls| ==> ls[i] <= 0.0
  {
    if h == [] then []
    else if h[|h| - 1] <= 0.0 then NonWins(h[..|h| - 1]) + [h[|h| - 1]]
    else NonWins(h[..|h| - 1])
  }

  lemma {:induction false} WinsSnoc(h: seq<real>, x: real)
    ensures Wins(h + [x]) == if x > 0.0 then Wins(h) + [x] else Wins(h)
    ensures NonWins(h + [x]) == if x > 0.0 then NonWins(h) else NonWins(h) + [x]
  {
    assert (h + [x])[..|h|] == h;
  }

  /** Every trade is either a win or a loss. */
  lemma {:induction false} WinsPartition(h: seq<real>)
    ensures |Wins(h)| + |NonWins(h)| == |h|
  {
    if h != [] {
      WinsPartition(h[..|h| - 1]);
    }
  }

  /** Mean of a series, zero for none. */
  function Mean(s: seq<real>): real {
    if s == [] then 0.0 else Sum(s) / |s| as real
  }

  /** `update_stats`' running average: the mean of n - 1 values folded with an n-th value x. */
  function RunningMean(mean: real, n: int, x: real): real
    requires n >= 1
  {
    (mean * (n - 1) as real + x) / n as real
  }

  /** Folding one more value into the mean of a series gives the mean of the longer series. */
  lemma {:induction false} MeanSnoc(s: seq<real>, x: real)
    ensures RunningMean(Mean(s), |s| + 1, x) == Mean(s + [x])
  {
    SumSnoc(s, x);
    var m := Mean(s);
    if s != [] {
      assert m * |s| as real == Sum(s);
    } else {
      assert m * |s| as real == 0.0;
      assert Sum([x]) == x by { SumSnoc([], x); }
    }
    assert (|s| + 1 - 1) as real == |s| as real;
  }

  /** The peak of the cumulative pnl, starting from 0. */
  function Peak(h: seq<real>): real {
    if h == [] then 0.0
    else
      var p := Peak(h[..|h| - 1]);
      if Sum(h) > p then Sum(h) else p
  }

  /** The largest fall from a peak to the cumulative pnl after it, 0 for an empty history. */
  function Drawdown(h: seq<real>): real {
    if h == [] then 0.0
    else
      var d := Drawdown(h[..|h| - 1]);
      if Peak(h) - Sum(h) > d then Peak(h) - Sum(h) else d
  }

  /** The peak is at least 0 and at least every cumulative pnl along the history. */
  lemma {:induction false} PeakBounds(h: seq<real>)
    ensures Peak(h) >= 0.0
    ensures forall i :: 0 <= i <= |h| ==> Peak(h) >= Sum(h[..i])
  {
    if h != [] {
      var p := h[..|h| - 1];
      PeakBounds(p);
      forall i | 0 <= i <= |h| ensures Peak(h) >= Sum(h[..i]) {
        if i < |h| {
          assert h[..i] == p[..i];
        } else {
          assert h[..i] == h;
        }
      }
    }
  }

  /** The drawdown is non-negative, never shrinks as trades are added, and bounds every peak-to-now fall. */
  lemma {:induction false} DrawdownBounds(h: seq<real>)
    ensures Drawdown(h) >= 0.0
    ensures forall i :: 0 <= i <= |h| ==> Drawdown(h) >= Drawdown(h[..i])
    ensures forall i :: 0 <= i <= |h| ==> Drawdown(h) >= Peak(h[..i]) - Sum(h[..i])
  {
    if h == [] {
      assert Peak(h) == 0.0 && Sum(h) == 0.0;
    } else {
      var p := h[..|h| - 1];
      DrawdownBounds(p);
      PeakBounds(h);
      assert h[..|h|] == h;
      forall i | 0 <= i <= |h|
        ensures Drawdown(h) >= Drawdown(h[..i])
        ensures Drawdown(h) >= Peak(h[..i]) - Sum(h[..i])
      {
        if i < |h| {
          assert h[..i] == p[..i];
        }
      }
    }
  }

  lemma {:induction false} DrawdownSnoc(h: seq<real>, x: real)
    ensures Drawdown(h + [x]) >= Drawdown(h) >= 0.0
  {
    DrawdownBounds(h);
    DrawdownBounds(h + [x]);
    assert (h + [x])[..|h|] == h;
  }

  /** The win rate in percent, 0 before any trade. */
  function WinRate(winning: int, total: int): (r: real)
    requires 0 <= winning <= total
    ensures 0.0 <= r <= 100.0
  {
    if total == 0 then 0.0
    else
      QuotientBetween(winning as real, total as real, 0.0, 1.0);
      winning as real / total as real * 100.0
  }

  /** Running statistics over a trade history of pnls. */
  class TradingStats {
    var totalTrades: int
    var winningTrades: int
    var losingTrades: int
    var totalPnl: real
    var maxDrawdown: real
    var winRate: real
    var averageWin: real
    var averageLoss: real
    var tradeHistory: seq<real>

    /** Every counter and average is the one the history determines. */
    ghost predicate Valid()
      reads this
    {
      && totalTrades == |tradeHistory|
      && winningTrades == |Wins(tradeHistory)|
      && losingTrades == |NonWins(tradeHistory)|
      && totalPnl == Sum(tradeHistory)
      && averageWin == Mean(Wins(tradeHistory))
      && averageLoss == Mean(NonWins(tradeHistory))
      && 0 <= winningTrades <= totalTrades
      && winRate == WinRate(winningTrades, totalTrades)
      && maxDrawdown == Drawdown(tradeHistory)
    }

    /** Fresh statistics: no trades. */
    constructor ()
      ensures Valid() && tradeHistory == []
    {
      totalTrades, winningTrades, losingTrades := 0, 0, 0;
      totalPnl, maxDrawdown, winRate, averageWin, averageLoss := 0.0, 0.0, 0.0, 0.0, 0.0;
      tradeHistory := [];
    }

    /**
     * `update_stats`: one more trade, counted as a win exactly when its pnl is positive; the
     * averages stay the means of the wins and losses, and the drawdown is rescanned over the
     * whole history, so it never decreases.
     */
    method UpdateStats(pnl: real)
      requires Valid()
      modifies this
      ensures Valid()
      ensures tradeHistory == old(tradeHistory) + [pnl]
      ensures totalTrades == old(totalTrades) + 1 && winningTrades + losingTrades == totalTrades
      ensures pnl > 0.0 ==> winningTrades == old(winningTrades) + 1 && losingTrades == old(losingTrades)
      ensures pnl <= 0.0 ==> losingTrades == old(losingTrades) + 1 && winningTrades == old(winningTrades)
      ensures 0.0 <= winRate <= 100.0
      ensures maxDrawdown >= old(maxDrawdown) && maxDrawdown >= 0.0
    {
      ghost var h := tradeHistory;
      WinsSnoc(h, pnl);
      WinsPartition(h + [pnl]);
      SumSnoc(h, pnl);
      DrawdownSnoc(h, pnl);
      var wins, losses, avgWin, avgLoss := winningTrades, losingTrades, averageWin, averageLoss;
      if pnl > 0.0 {
        MeanSnoc(Wins(h), pnl);
        wins := wins + 1;
        avgWin := RunningMean(avgWin, wins, pnl);
      } else {
        MeanSnoc(NonWins(h), pnl);
        losses := losses + 1;
        avgLoss := RunningMean(avgLoss, losses, pnl);
      }
      var history := tradeHistory + [pnl];
      var drawdown := RescanDrawdown(history, maxDrawdown);
      totalTrades, totalPnl := totalTrades + 1, totalPnl + pnl;
      winningTrades, losingTrades, averageWin, averageLoss := wins, losses, avgWin, avgLoss;
      winRate := WinRate(wins, totalTrades);
      tradeHistory, maxDrawdown := history, drawdown;
    }
  }

  /**
   * The drawdown loop of `update_stats`: cumulative pnl and peak from 0, keeping the larger
   * of the previous maximum and each peak-to-now fall.
   */
  method RescanDrawdown(h: seq<real>, previous: real) returns (maxDrawdown: real)
    requires previous >= 0.0
    ensures maxDrawdown == (if previous > Drawdown(h) then previous else Drawdown(h))
  {
    maxDrawdown := previous;
    var cumulative := 0.0;
    var peak := 0.0;
    var i := 0;
    DrawdownBounds(h);
    while i < |h|
      invariant 0 <= i <= |h|
      invariant cumulative == Sum(h[..i]) && peak == Peak(h[..i])
      invariant maxDrawdown == (if previous > Drawdown(h[..i]) then previous else Drawdown(h[..i]))
    {
      SumStep(h, i);
      assert h[..i + 1][..i] == h[..i];
      cumulative := cumulative + h[i];
      peak := if peak > cumulative then peak else cumulative;
      var drawdown := peak - cumulative;
      maxDrawdown := if maxDrawdown > drawdown then maxDrawdown else drawdown;
      i := i + 1;
    }
    assert h[..|h|] == h;
  }
}
