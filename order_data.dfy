/**
 * An order of the order manager: opened from a signal at its entry price, repriced with
 * its PnL as the market moves, checked against its take profit and stop loss, and closed
 * with a reason. Timestamps are clock readings passed in by the caller.
 */
module OrderModels {
  import opened Wrappers

  /** Why an order was closed; the source spells these out as (Vietnamese) messages. */
  datatype CloseReason = TakeProfitHit | StopLossHit | TrendReversal

  /** The order's side as its signal names it: "LONG" is long, any other name is treated as short. */
  predicate IsLong(signalType: string) {
    signalType == "LONG"
  }

  /** The PnL percentage at a price: the move from the entry, signed for the side. */
  function PnlPercentage(signalType: string, entry: real, price: real): real
    requires entry != 0.0
  {
    if IsLong(signalType) then (price - entry) / entry * 100.0
    else (entry - price) / entry * 100.0
  }

  /** The PnL of an investment at a PnL percentage. */
  function PnlOf(investment: real, percentage: real): real {
    investment * percentage / 100.0
  }

  /** No PnL at the entry price, and the two sides have opposite PnLs at the same price. */
  lemma {:induction false} PnlSymmetric(entry: real, price: real, investment: real)
    requires entry != 0.0
    ensures PnlPercentage("LONG", entry, entry) == 0.0 && PnlOf(investment, PnlPercentage("LONG", entry, entry)) == 0.0
    ensures PnlPercentage("SHORT", entry, price) == -PnlPercentage("LONG", entry, price)
    ensures PnlOf(investment, PnlPercentage("SHORT", entry, price)) == -PnlOf(investment, PnlPercentage("LONG", entry, price))
  {
    var p := PnlPercentage("LONG", entry, price);
    assert (entry - price) / entry == -((price - entry) / entry);
    assert PnlOf(investment, -p) == -PnlOf(investment, p) by {
      assert investment * (-p) == -(investment * p);
    }
  }

  /** With a positive entry, a long order is in profit exactly when the price is above its entry. */
  lemma {:induction false} LongProfitIff(entry: real, price: real, investment: real)
    requires entry > 0.0 && investment > 0.0
    ensures PnlOf(investment, PnlPercentage("LONG", entry, price)) > 0.0 <==> price > entry
  {
    var m := (price - entry) / entry;
    assert m * entry == price - entry;
    assert PnlOf(investment, PnlPercentage("LONG", entry, price)) == investment * m;
  }

  /**
   * `check_close_conditions` over values: a long order hits its take profit at or above it,
   * else its stop loss at or below it; a short order mirrored. The take profit comes first.
   */
  function CloseCondition(signalType: string, price: real, takeProfit: real, stopLoss: real): Option<CloseReason> {
    if IsLong(signalType) then
      if price >= takeProfit then Some(TakeProfitHit)
      else if price <= stopLoss then Some(StopLossHit)
      else None
    else
      if price <= takeProfit then Some(TakeProfitHit)
      else if price >= stopLoss then Some(StopLossHit)
      else None
  }

  /**
   * A close condition holds exactly when the price has reached one of the two levels on the
   * order's side, and the take profit wins whenever both are reached (levels set the wrong
   * way round).
   */
  lemma {:induction false} CloseConditionCases(signalType: string, price: real, takeProfit: real, stopLoss: real)
    ensures IsLong(signalType) ==>
      (CloseCondition(signalType, price, takeProfit, stopLoss) == Some(TakeProfitHit) <==> price >= takeProfit)
    ensures !IsLong(signalType) ==>
      (CloseCondition(signalType, price, takeProfit, stopLoss) == Some(TakeProfitHit) <==> price <= takeProfit)
    ensures IsLong(signalType) ==>
      (CloseCondition(signalType, price, takeProfit, stopLoss) == Some(StopLossHit) <==> price < takeProfit && price <= stopLoss)
    ensures !IsLong(signalType) ==>
      (CloseCondition(signalType, price, takeProfit, stopLoss) == Some(StopLossHit) <==> price > takeProfit && price >= stopLoss)
    ensures CloseCondition(signalType, price, takeProfit, stopLoss) != Some(TrendReversal)
  {
  }

  /** An order; its symbol, side, levels and entry never change once it is opened. */
  class OrderData {
    const symbol: string
    const signalType: string
    const entryPrice: real
    const takeProfit: real
    const stopLoss: real
    const entryTime: int
    var currentPrice: real
    var status: string
    var pnl: real
    var pnlPercentage: real
    var closeTime: Option<int>
    var closeReason: Option<CloseReason>

    /** `from_signal`: a RUNNING order priced at its entry, with no PnL and no close. */
    constructor FromSignal(symbol: string, signalType: string, entry: real, takeProfit: real, stopLoss: real, now: int)
      ensures this.symbol == symbol && this.signalType == signalType && entryPrice == entry
      ensures this.takeProfit == takeProfit && this.stopLoss == stopLoss && entryTime == now
      ensures currentPrice == entry && status == "RUNNING" && pnl == 0.0 && pnlPercentage == 0.0
      ensures closeTime == None && closeReason == None
    {
      this.symbol := symbol;
      this.signalType := signalType;
      entryPrice := entry;
      this.takeProfit := takeProfit;
      this.stopLoss := stopLoss;
      entryTime := now;
      currentPrice := entry;
      status := "RUNNING";
      pnl := 0.0;
      pnlPercentage := 0.0;
      closeTime := None;
      closeReason := None;
    }

    /** `update_price`: the new price, its PnL percentage for the order's side and the PnL of the investment. */
    method UpdatePrice(price: real, investment: real)
      requires entryPrice != 0.0
      modifies this
      ensures currentPrice == price
      ensures pnlPercentage == PnlPercentage(signalType, entryPrice, price)
      ensures pnl == PnlOf(investment, pnlPercentage)
      ensures status == old(status) && closeTime == old(closeTime) && closeReason == old(closeReason)
    {
      currentPrice := price;
      if signalType == "LONG" {
        pnlPercentage := (currentPrice - entryPrice) / entryPrice * 100.0;
      } else {
        pnlPercentage := (entryPrice - currentPrice) / entryPrice * 100.0;
      }
      pnl := investment * pnlPercentage / 100.0;
    }

    /** `check_close_conditions`: reads the order and changes nothing. */
    function CheckCloseConditions(): (r: Option<CloseReason>)
      reads this
      ensures r == CloseCondition(signalType, currentPrice, takeProfit, stopLoss)
    {
      if signalType == "LONG" then
        if currentPrice >= takeProfit then Some(TakeProfitHit)
        else if currentPrice <= stopLoss then Some(StopLossHit)
        else None
      else
        if currentPrice <= takeProfit then Some(TakeProfitHit)
        else if currentPrice >= stopLoss then Some(StopLossHit)
        else None
    }

    /** `close`: COMPLETED with its reason and close time; prices and PnL stay as they are. */
    method Close(reason: CloseReason, now: int)
      modifies this
      ensures status == "COMPLETED" && closeReason == Some(reason) && closeTime == Some(now)
      ensures currentPrice == old(currentPrice) && pnl == old(pnl) && pnlPercentage == old(pnlPercentage)
    {
      status := "COMPLETED";
      closeTime := Some(now);
      closeReason := Some(reason);
    }
  }
}
