/**
 * The order tracker behind the monitoring window: orders keyed by symbol, each closed as a
 * success (positive profit) or a failure on a trend reversal, its take profit or its stop
 * loss, with counters of created, successful and failed orders and the running profit.
 * Orders never leave the tracker's dictionary, so they are modelled as values held in a map.
 */
module OrderTracking {
  import opened Wrappers
  import OrderModels

  datatype Status = Running | Success | Failed

  /** A tracked order; every order is sized for an investment of 100. */
  datatype Order = Order(
    symbol: string,
    entryPrice: real,
    direction: string,
    takeProfit: real,
    stopLoss: real,
    entryTime: int,
    status: Status,
    profitLoss: real,
    initialInvestment: real)

  const DefaultInvestment: real := 100.0

  /** Python truthiness of the optional new direction: absent and the empty string are false. */
  predicate Truthy(newDirection: Option<string>) {
    newDirection.Some? && newDirection.value != ""
  }

  /** `calculate_profit_loss`: the investment times the relative move, signed for the side ("LONG" or anything else). */
  function ProfitLoss(order: Order, price: real): (pl: real)
    requires order.entryPrice != 0.0
    ensures pl == OrderModels.PnlOf(order.initialInvestment,
      OrderModels.PnlPercentage(order.direction, order.entryPrice, price))
  {
    var move := if order.direction == "LONG" then (price - order.entryPrice) / order.entryPrice
      else (order.entryPrice - price) / order.entryPrice;
    assert order.initialInvestment * (move * 100.0) / 100.0 == order.initialInvestment * move;
    order.initialInvestment * move
  }

  /**
   * What `update_order` decides: a truthy new direction that differs from the order's
   * closes it as a trend reversal; a truthy equal one only announces the levels and closes
   * nothing; with no new direction the take profit, then the stop loss, is checked.
   */
  function UpdateDecision(order: Order, price: real, newDirection: Option<string>): Option<OrderModels.CloseReason> {
    if Truthy(newDirection) then
      if newDirection.value != order.direction then Some(OrderModels.TrendReversal) else None
    else if order.direction == "LONG" then
      if price >= order.takeProfit then Some(OrderModels.TakeProfitHit)
      else if price <= order.stopLoss then Some(OrderModels.StopLossHit)
      else None
    else
      if price <= order.takeProfit then Some(OrderModels.TakeProfitHit)
      else if price >= order.stopLoss then Some(OrderModels.StopLossHit)
      else None
  }

  /**
   * The tracker and the order manager agree on an update without a new direction (both check
   * the take profit, then the stop loss), and on a reversal; unlike the order manager, the
   * tracker never closes an order on an update that confirms its direction.
   */
  lemma {:induction false} UpdateDecisionMatchesManager(order: Order, price: real, newDirection: Option<string>)
    ensures !Truthy(newDirection) ==>
      UpdateDecision(order, price, newDirection) == OrderModels.CloseCondition(order.direction, price, order.takeProfit, order.stopLoss)
    ensures Truthy(newDirection) ==>
      (UpdateDecision(order, price, newDirection) == Some(OrderModels.TrendReversal) <==> newDirection.value != order.direction)
    ensures Truthy(newDirection) && newDirection.value == order.direction ==> UpdateDecision(order, price, newDirection) == None
  {
  }

  /** The order closed at a price: its profit or loss, and SUCCESS exactly when that is positive. */
  function Closed(order: Order, price: real): (c: Order)
    requires order.entryPrice != 0.0
    ensures c.profitLoss == ProfitLoss(order, price)
    ensures c.status == Success <==> c.profitLoss > 0.0
    ensures c.status != Running
    ensures c.(status := order.status, profitLoss := order.profitLoss) == order
  {
    var pl := ProfitLoss(order, price);
    order.(profitLoss := pl, status := if pl > 0.0 then Success else Failed)
  }

  /** The symbols whose order is still running. */
  function RunningSymbols(orders: map<string, Order>): set<string> {
    set s | s in orders && orders[s].status == Running
  }

  /** Storing a running order under a symbol adds at most that symbol to the running ones. */
  lemma {:induction false} RunningAfterStore(orders: map<string, Order>, symbol: string, order: Order)
    requires order.status == Running
    ensures |RunningSymbols(orders[symbol := order])| <= |RunningSymbols(orders)| + 1
  {
    var before := RunningSymbols(orders);
    var after := RunningSymbols(orders[symbol := order]);
    assert after <= before + {symbol};
    SubsetCardinality(after, before + {symbol});
  }

  /** Closing a running order removes exactly its symbol from the running ones. */
  lemma {:induction false} RunningAfterClose(orders: map<string, Order>, symbol: string, closed: Order)
    requires symbol in orders && orders[symbol].status == Running && closed.status != Running
    ensures |RunningSymbols(orders[symbol := closed])| == |RunningSymbols(orders)| - 1
  {
    var before := RunningSymbols(orders);
    var after := RunningSymbols(orders[symbol := closed]);
    assert after == before - {symbol};
    assert before == after + {symbol};
  }

  lemma {:induction false} SubsetCardinality<T>(a: set<T>, b: set<T>)
    requires a <= b
    ensures |a| <= |b|
  {
    assert b == a + (b - a);
  }

  /** The success rate the monitoring window shows, in percent, 0 before any order. */
  function SuccessRate(successful: nat, total: nat): (r: real)
    ensures total == 0 ==> r == 0.0
    ensures successful <= total ==> 0.0 <= r <= 100.0
    ensures total > 0 && successful > total ==> r > 100.0
  {
    if total == 0 then 0.0
    else
      var q := successful as real / total as real;
      assert successful <= total ==> q <= 1.0 by {
        if successful <= total {
          assert q * total as real == successful as real;
        }
      }
      assert successful > total ==> q > 1.0 by {
        if successful > total {
          assert q * total as real == successful as real;
        }
      }
      q * 100.0
  }

  class OrderTracker {
    var orders: map<string, Order>
    var totalOrders: nat
    var successfulOrders: nat
    var failedOrders: nat
    var currentProfit: real

    /**
     * Every order is counted once: the successes, the failures and the orders still running
     * never outnumber the orders created.
     */
    ghost predicate Valid()
      reads this
    {
      successfulOrders + failedOrders + |RunningSymbols(orders)| <= totalOrders
    }

    /** A tracker with no orders and zeroed counters (the Telegram bot and the window are not modelled). */
    constructor ()
      ensures Valid()
      ensures orders == map[] && totalOrders == 0 && successfulOrders == 0 && failedOrders == 0 && currentProfit == 0.0
    {
      orders := map[];
      totalOrders := 0;
      successfulOrders := 0;
      failedOrders := 0;
      currentProfit := 0.0;
    }

    /** `add_order`: a RUNNING order stored under its symbol, replacing any order there, and counted. */
    method AddOrder(symbol: string, entryPrice: real, direction: string, takeProfit: real, stopLoss: real, now: int)
      modifies this
      ensures orders == old(orders)[symbol := Order(symbol, entryPrice, direction, takeProfit, stopLoss, now, Running, 0.0, DefaultInvestment)]
      ensures totalOrders == old(totalOrders) + 1
      ensures successfulOrders == old(successfulOrders) && failedOrders == old(failedOrders) && currentProfit == old(currentProfit)
      ensures old(Valid()) ==> Valid()
    {
      var order := Order(symbol, entryPrice, direction, takeProfit, stopLoss, now, Running, 0.0, DefaultInvestment);
      RunningAfterStore(orders, symbol, order);
      orders := orders[symbol := order];
      totalOrders := totalOrders + 1;
    }

    /**
     * `close_order`: the order gets its profit or loss at the price and the status it earns,
     * the matching counter goes up by one and the profit moves by that amount. Closing a
     * running order keeps every order counted once.
     */
    method CloseOrder(symbol: string, price: real)
      requires symbol in orders && orders[symbol].entryPrice != 0.0
      modifies this
      ensures orders == old(orders)[symbol := Closed(old(orders)[symbol], price)]
      ensures var pl := ProfitLoss(old(orders)[symbol], price);
        currentProfit == old(currentProfit) + pl
        && (pl > 0.0 ==> successfulOrders == old(successfulOrders) + 1 && failedOrders == old(failedOrders))
        && (pl <= 0.0 ==> successfulOrders == old(successfulOrders) && failedOrders == old(failedOrders) + 1)
      ensures totalOrders == old(totalOrders)
      ensures old(Valid()) && old(orders)[symbol].status == Running ==> Valid()
    {
      var order := orders[symbol];
      var closed := Closed(order, price);
      if order.status == Running {
        RunningAfterClose(orders, symbol, closed);
      }
      orders := orders[symbol := closed];
      if closed.status == Success {
        successfulOrders := successfulOrders + 1;
      } else {
        failedOrders := failedOrders + 1;
      }
      currentProfit := currentProfit + closed.profitLoss;
    }

    /**
     * `update_order` as written: an unknown symbol changes nothing, and otherwise the order
     * is closed whenever `UpdateDecision` names a reason, whatever its status, so an order
     * already closed is closed and counted again.
     */
    method UpdateOrder(symbol: string, price: real, newDirection: Option<string>)
      requires symbol in orders && orders[symbol].entryPrice == 0.0 ==>
        Truthy(newDirection) && newDirection.value == orders[symbol].direction
      modifies this
      ensures symbol !in old(orders) ==> unchanged(this)
      ensures symbol in old(orders) && UpdateDecision(old(orders)[symbol], price, newDirection).None? ==> unchanged(this)
      ensures symbol in old(orders) && UpdateDecision(old(orders)[symbol], price, newDirection).Some? ==>
        old(orders)[symbol].entryPrice != 0.0
        && orders == old(orders)[symbol := Closed(old(orders)[symbol], price)]
        && totalOrders == old(totalOrders)
        && (var pl := ProfitLoss(old(orders)[symbol], price);
            currentProfit == old(currentProfit) + pl
            && (pl > 0.0 ==> successfulOrders == old(successfulOrders) + 1 && failedOrders == old(failedOrders))
            && (pl <= 0.0 ==> successfulOrders == old(successfulOrders) && failedOrders == old(failedOrders) + 1))
      ensures old(Valid()) && symbol in old(orders) && old(orders)[symbol].status == Running ==> Valid()
    {
      if symbol !in orders {
        return;
      }
      var order := orders[symbol];
      if Truthy(newDirection) && newDirection.value != order.direction {
        CloseOrder(symbol, price);
        return;
      }
      if Truthy(newDirection) && newDirection.value == order.direction {
        return;
      }
      var decision := UpdateDecision(order, price, newDirection);
      if decision.Some? {
        CloseOrder(symbol, price);
      }
    }

    /**
     * The corrected update: the same decision, taken only for an order that is still
     * running, so every order is closed and counted at most once.
     */
    method UpdateRunningOrder(symbol: string, price: real, newDirection: Option<string>)
      requires Valid()
      requires symbol in orders && orders[symbol].entryPrice == 0.0 && orders[symbol].status == Running ==>
        Truthy(newDirection) && newDirection.value == orders[symbol].direction
      modifies this
      ensures Valid()
      ensures symbol !in old(orders) || old(orders)[symbol].status != Running ==> unchanged(this)
      ensures symbol in old(orders) && old(orders)[symbol].status == Running ==>
        if UpdateDecision(old(orders)[symbol], price, newDirection).Some? then
          old(orders)[symbol].entryPrice != 0.0
          && orders == old(orders)[symbol := Closed(old(orders)[symbol], price)]
          && totalOrders == old(totalOrders)
          && (var pl := ProfitLoss(old(orders)[symbol], price);
              currentProfit == old(currentProfit) + pl
              && (pl > 0.0 ==> successfulOrders == old(successfulOrders) + 1 && failedOrders == old(failedOrders))
              && (pl <= 0.0 ==> successfulOrders == old(successfulOrders) && failedOrders == old(failedOrders) + 1))
        else unchanged(this)
    {
      if symbol !in orders || orders[symbol].status != Running {
        return;
      }
      UpdateOrder(symbol, price, newDirection);
    }

    /** The success rate the monitoring window shows; at most 100% while every order is counted once. */
    function MonitorSuccessRate(): (r: real)
      reads this
      ensures Valid() ==> 0.0 <= r <= 100.0
    {
      SuccessRate(successfulOrders, totalOrders)
    }
  }

  /**
   * A long order with its take profit at 110, updated at 120 and again at 121: the as-written
   * update closes it twice, so one order created yields two successes and a 200% success rate.
   */
  method DoubleCloseExample() returns (tracker: OrderTracker)
    ensures tracker.totalOrders == 1 && tracker.successfulOrders == 2
    ensures !tracker.Valid() && tracker.MonitorSuccessRate() > 100.0
  {
    tracker := new OrderTracker();
    tracker.AddOrder("BTCUSDT", 100.0, "LONG", 110.0, 90.0, 0);
    tracker.UpdateOrder("BTCUSDT", 120.0, None);
    tracker.UpdateOrder("BTCUSDT", 121.0, None);
  }

  /** The same two updates through the corrected update close the order once. */
  method SingleCloseExample() returns (tracker: OrderTracker)
    ensures tracker.totalOrders == 1 && tracker.successfulOrders == 1 && tracker.failedOrders == 0
    ensures tracker.Valid() && tracker.MonitorSuccessRate() == 100.0
  {
    tracker := new OrderTracker();
    tracker.AddOrder("BTCUSDT", 100.0, "LONG", 110.0, 90.0, 0);
    tracker.UpdateRunningOrder("BTCUSDT", 120.0, None);
    tracker.UpdateRunningOrder("BTCUSDT", 121.0, None);
  }
}
