/**
 * The order manager: at most `maxActiveOrders` running orders, one per symbol, each
 * repriced on every update and closed on a trend reversal, its take profit or its stop
 * loss; closed orders are kept with the running profit and the win/loss tally.
 */
module OrderManagement {
  import opened Wrappers
  import opened Candles
  import Entities
  import opened OrderModels

  /** The symbols of a list of orders, in order. */
  function Symbols(orders: seq<OrderData>): (r: seq<string>)
    ensures |r| == |orders|
    ensures forall i :: 0 <= i < |r| ==> r[i] == orders[i].symbol
  {
    if orders == [] then [] else Symbols(orders[..|orders| - 1]) + [orders[|orders| - 1].symbol]
  }

  /** No two orders share a symbol: the dictionary keyed by symbol. */
  predicate DistinctSymbols(orders: seq<OrderData>) {
    forall i, j :: 0 <= i < j < |orders| ==> orders[i].symbol != orders[j].symbol
  }

  /** Where the order of a symbol sits, or -1 if no order has it. */
  function IndexOf(orders: seq<OrderData>, symbol: string): (i: int)
    ensures -1 <= i < |orders|
    ensures i >= 0 ==> orders[i].symbol == symbol
    ensures i == -1 <==> symbol !in Symbols(orders)
  {
    if orders == [] then -1
    else if orders[|orders| - 1].symbol == symbol then |orders| - 1
    else
      assert Symbols(orders) == Symbols(orders[..|orders| - 1]) + [orders[|orders| - 1].symbol];
      IndexOf(orders[..|orders| - 1], symbol)
  }

  /** Opening an order for a new symbol keeps the symbols distinct. */
  lemma {:induction false} AppendDistinct(orders: seq<OrderData>, o: OrderData)
    requires DistinctSymbols(orders) && o.symbol !in Symbols(orders)
    ensures DistinctSymbols(orders + [o])
    ensures Symbols(orders + [o]) == Symbols(orders) + [o.symbol]
  {
    assert forall i :: 0 <= i < |orders| ==> Symbols(orders)[i] != o.symbol;
  }

  /** The list with the element at position i popped. */
  function Popped<T>(s: seq<T>, i: int): (r: seq<T>)
    requires 0 <= i < |s|
    ensures |r| == |s| - 1
  {
    s[..i] + s[i + 1..]
  }

  /** The element at position k once position i is popped. */
  lemma {:induction false} PoppedAt<T>(s: seq<T>, i: int, k: int)
    requires 0 <= i < |s| && 0 <= k < |s| - 1
    ensures Popped(s, i)[k] == s[if k < i then k else k + 1]
  {
    if k < i {
      assert Popped(s, i)[k] == s[..i][k];
    } else {
      assert Popped(s, i)[k] == s[i + 1..][k - i];
    }
  }

  /** Popping an element of a list without repetitions leaves a list without repetitions that lacks it. */
  lemma {:induction false} PopUnique<T>(s: seq<T>, i: int)
    requires 0 <= i < |s| && forall a, b :: 0 <= a < b < |s| ==> s[a] != s[b]
    ensures forall a, b :: 0 <= a < b < |s| - 1 ==> Popped(s, i)[a] != Popped(s, i)[b]
    ensures s[i] !in Popped(s, i)
  {
    forall a, b | 0 <= a < b < |s| - 1
      ensures Popped(s, i)[a] != Popped(s, i)[b]
    {
      PoppedAt(s, i, a);
      PoppedAt(s, i, b);
    }
    forall a | 0 <= a < |s| - 1
      ensures Popped(s, i)[a] != s[i]
    {
      PoppedAt(s, i, a);
    }
  }

  /** The symbols of the orders left after a pop are the symbols with the popped one cut out. */
  lemma {:induction false} PopSymbols(orders: seq<OrderData>, i: int)
    requires 0 <= i < |orders|
    ensures Symbols(orders[..i] + orders[i + 1..]) == Symbols(orders)[..i] + Symbols(orders)[i + 1..]
  {
    var rest := Popped(orders, i);
    var syms := Symbols(orders);
    var symsRest := Symbols(rest);
    var kept := Popped(syms, i);
    forall k | 0 <= k < |rest|
      ensures symsRest[k] == kept[k]
    {
      var j := if k < i then k else k + 1;
      PoppedAt(orders, i, k);
      PoppedAt(syms, i, k);
      assert symsRest[k] == rest[k].symbol;
      assert kept[k] == syms[j] == orders[j].symbol;
    }
    assert symsRest == kept;
  }

  /**
   * Popping the order at `i` keeps the others in order and the symbols distinct, and its
   * symbol is no longer among them.
   */
  lemma {:induction false} RemoveDistinct(orders: seq<OrderData>, i: int)
    requires DistinctSymbols(orders) && 0 <= i < |orders|
    ensures DistinctSymbols(orders[..i] + orders[i + 1..])
    ensures Symbols(orders[..i] + orders[i + 1..]) == Symbols(orders)[..i] + Symbols(orders)[i + 1..]
    ensures orders[i].symbol !in Symbols(orders[..i] + orders[i + 1..])
  {
    var rest := Popped(orders, i);
    var syms := Symbols(orders);
    PopSymbols(orders, i);
    PopUnique(syms, i);
    var kept := Symbols(rest);
    forall a, b | 0 <= a < b < |rest|
      ensures rest[a].symbol != rest[b].symbol
    {
      assert rest[a].symbol == kept[a] && rest[b].symbol == kept[b];
    }
  }

  /** After the pop, a symbol is among the remaining orders exactly when it was before and is not the popped one. */
  lemma {:induction false} RemovedSymbols(orders: seq<OrderData>, i: int)
    requires DistinctSymbols(orders) && 0 <= i < |orders|
    ensures forall s :: s in Symbols(orders[..i] + orders[i + 1..]) <==> s in Symbols(orders) && s != orders[i].symbol
  {
    var rest := orders[..i] + orders[i + 1..];
    RemoveDistinct(orders, i);
    forall s
      ensures s in Symbols(rest) <==> s in Symbols(orders) && s != orders[i].symbol
    {
      if s in Symbols(rest) {
        var k :| 0 <= k < |rest| && Symbols(rest)[k] == s;
        PoppedAt(orders, i, k);
        var j := if k < i then k else k + 1;
        assert Symbols(orders)[j] == s;
      }
      if s in Symbols(orders) && s != orders[i].symbol {
        var j :| 0 <= j < |orders| && Symbols(orders)[j] == s;
        var k := if j < i then j else j - 1;
        PoppedAt(orders, i, k);
        assert Symbols(rest)[k] == s;
      }
    }
  }

  /** The signal dictionary `add_order` reads; a key it lacks is `None`. */
  datatype SignalInput = SignalInput(
    symbol: Option<string>,
    signalType: Option<string>,
    entry: Option<real>,
    takeProfit: Option<real>,
    stopLoss: Option<real>)

  /** All the keys `from_signal` reads are present. */
  predicate Complete(signal: SignalInput) {
    signal.symbol.Some? && signal.signalType.Some? && signal.entry.Some?
    && signal.takeProfit.Some? && signal.stopLoss.Some?
  }

  /**
   * What an update decides: a new signal of the other side closes the order as a trend
   * reversal before its take profit and stop loss are looked at.
   */
  function UpdateDecision(signalType: string, newSignalType: Option<string>, price: real, takeProfit: real, stopLoss: real): Option<CloseReason> {
    if newSignalType.Some? && newSignalType.value != signalType then Some(TrendReversal)
    else CloseCondition(signalType, price, takeProfit, stopLoss)
  }

  /**
   * A signal of the order's own side changes nothing, and a reversal closes the order at any
   * price, even one between its levels.
   */
  lemma {:induction false} UpdateDecisionCases(signalType: string, newSignalType: Option<string>, price: real, takeProfit: real, stopLoss: real)
    ensures newSignalType == Some(signalType) ==>
      UpdateDecision(signalType, newSignalType, price, takeProfit, stopLoss) == UpdateDecision(signalType, None, price, takeProfit, stopLoss)
    ensures UpdateDecision(signalType, newSignalType, price, takeProfit, stopLoss) == None <==>
      (newSignalType.None? || newSignalType.value == signalType) && CloseCondition(signalType, price, takeProfit, stopLoss) == None
  {
  }

  /** Closing one more order adds its PnL to the profit and counts it as a win or a loss. */
  lemma {:induction false} TallySnoc(pnls: seq<real>, x: real)
    ensures Sum(pnls + [x]) == Sum(pnls) + x
    ensures x > 0.0 ==> |Entities.Wins(pnls + [x])| == |Entities.Wins(pnls)| + 1 && |Entities.NonWins(pnls + [x])| == |Entities.NonWins(pnls)|
    ensures x <= 0.0 ==> |Entities.Wins(pnls + [x])| == |Entities.Wins(pnls)| && |Entities.NonWins(pnls + [x])| == |Entities.NonWins(pnls)| + 1
  {
    SumSnoc(pnls, x);
    Entities.WinsSnoc(pnls, x);
  }

  /** The figures `get_statistics` reports. */
  datatype Statistics = Statistics(
    totalProfit: real,
    winRate: real,
    totalTrades: int,
    winCount: int,
    lossCount: int,
    activeOrders: int)

  class OrderManager {
    /** The cap on running orders and the investment each order's PnL is computed for. */
    const maxActiveOrders: nat
    const initialInvestment: real
    var activeOrders: seq<OrderData>
    var completedOrders: seq<OrderData>
    /** The PnL each completed order had when it was closed. */
    ghost var completedPnls: seq<real>
    var totalProfit: real
    var winCount: nat
    var lossCount: nat

    /**
     * One running order per symbol and never more than the cap; the profit and the tally are
     * those of the PnLs the completed orders were closed with.
     */
    ghost predicate Valid()
      reads this
    {
      DistinctSymbols(activeOrders) && |activeOrders| <= maxActiveOrders && StatsValid()
    }

    /** The profit and the tally are those of the PnLs the completed orders were closed with. */
    ghost predicate StatsValid()
      reads this
    {
      |completedPnls| == |completedOrders|
      && totalProfit == Sum(completedPnls)
      && winCount == |Entities.Wins(completedPnls)|
      && lossCount == |Entities.NonWins(completedPnls)|
    }

    constructor (maxActiveOrders: nat, initialInvestment: real)
      ensures Valid()
      ensures this.maxActiveOrders == maxActiveOrders && this.initialInvestment == initialInvestment
      ensures activeOrders == [] && completedOrders == [] && totalProfit == 0.0 && winCount == 0 && lossCount == 0
    {
      this.maxActiveOrders := maxActiveOrders;
      this.initialInvestment := initialInvestment;
      activeOrders := [];
      completedOrders := [];
      completedPnls := [];
      totalProfit := 0.0;
      winCount := 0;
      lossCount := 0;
    }

    /** `can_add_order`: room for one more running order. */
    predicate CanAddOrder()
      reads this
    {
      |activeOrders| < maxActiveOrders
    }

    /** Whether a symbol has a running order. */
    predicate IsActive(symbol: string)
      reads this
    {
      symbol in Symbols(activeOrders)
    }

    /**
     * `add_order`: a new RUNNING order at the signal's entry, appended to the running orders,
     * exactly when there is room, the signal is complete and its symbol has no running order;
     * otherwise nothing changes.
     */
    method AddOrder(signal: SignalInput, now: int) returns (r: Option<OrderData>)
      requires Valid()
      modifies this
      ensures Valid()
      ensures r.Some? <==> old(CanAddOrder()) && Complete(signal) && !old(IsActive(signal.symbol.value))
      ensures r.Some? ==> fresh(r.value) && activeOrders == old(activeOrders) + [r.value]
      ensures r.Some? ==>
        (r.value.symbol == signal.symbol.value && r.value.signalType == signal.signalType.value
         && r.value.entryPrice == signal.entry.value && r.value.currentPrice == signal.entry.value
         && r.value.takeProfit == signal.takeProfit.value && r.value.stopLoss == signal.stopLoss.value
         && r.value.status == "RUNNING" && r.value.pnl == 0.0 && r.value.entryTime == now)
      ensures r.None? ==> activeOrders == old(activeOrders)
      ensures completedOrders == old(completedOrders) && completedPnls == old(completedPnls)
      ensures totalProfit == old(totalProfit) && winCount == old(winCount) && lossCount == old(lossCount)
    {
      if !CanAddOrder() {
        return None;
      }
      if signal.symbol.None? {
        return None;
      }
      var symbol := signal.symbol.value;
      if IndexOf(activeOrders, symbol) >= 0 {
        return None;
      }
      if !Complete(signal) {
        return None;
      }
      var order := new OrderData.FromSignal(symbol, signal.signalType.value, signal.entry.value,
        signal.takeProfit.value, signal.stopLoss.value, now);
      AppendDistinct(activeOrders, order);
      activeOrders := activeOrders + [order];
      return Some(order);
    }

    /**
     * `close_order`: the running order of the symbol leaves the running orders, is marked
     * COMPLETED with the reason, joins the completed orders and adds its PnL to the profit
     * and to the wins (positive PnL) or the losses. A symbol with no running order changes
     * nothing, so closing twice closes once.
     */
    method CloseOrder(symbol: string, reason: CloseReason, now: int) returns (r: Option<OrderData>)
      requires Valid()
      modifies this, set o | o in activeOrders && o.symbol == symbol
      ensures Valid()
      ensures !IsActive(symbol)
      ensures forall s :: s in Symbols(activeOrders) <==> s in Symbols(old(activeOrders)) && s != symbol
      ensures !old(IsActive(symbol)) ==> r == None && unchanged(this)
      ensures old(IsActive(symbol)) ==>
        var i := IndexOf(old(activeOrders), symbol);
        r == Some(old(activeOrders)[i])
        && activeOrders == old(activeOrders[..i] + activeOrders[i + 1..])
        && completedOrders == old(completedOrders) + [r.value]
        && completedPnls == old(completedPnls) + [r.value.pnl]
      ensures r.Some? ==>
        r.value.status == "COMPLETED" && r.value.closeReason == Some(reason) && r.value.closeTime == Some(now)
        && r.value.pnl == old(r.value.pnl) && r.value.pnlPercentage == old(r.value.pnlPercentage)
        && r.value.currentPrice == old(r.value.currentPrice)
        && totalProfit == old(totalProfit) + r.value.pnl
        && (r.value.pnl > 0.0 ==> winCount == old(winCount) + 1 && lossCount == old(lossCount))
        && (r.value.pnl <= 0.0 ==> winCount == old(winCount) && lossCount == old(lossCount) + 1)
    {
      var i := IndexOf(activeOrders, symbol);
      if i < 0 {
        return None;
      }
      var order := activeOrders[i];
      RemoveDistinct(activeOrders, i);
      RemovedSymbols(activeOrders, i);
      activeOrders := activeOrders[..i] + activeOrders[i + 1..];
      assert DistinctSymbols(activeOrders) && !IsActive(symbol);
      order.Close(reason, now);
      RecordCompleted(order, order.pnl);
      r := Some(order);
    }

    /**
     * The statistics step of `close_order`: the PnL is added to the profit and to the wins
     * (positive) or the losses, and the order joins the completed orders.
     */
    method RecordCompleted(order: OrderData, pnl: real)
      requires StatsValid()
      modifies this
      ensures StatsValid()
      ensures activeOrders == old(activeOrders)
      ensures completedOrders == old(completedOrders) + [order] && completedPnls == old(completedPnls) + [pnl]
      ensures totalProfit == old(totalProfit) + pnl
      ensures pnl > 0.0 ==> winCount == old(winCount) + 1 && lossCount == old(lossCount)
      ensures pnl <= 0.0 ==> winCount == old(winCount) && lossCount == old(lossCount) + 1
    {
      TallySnoc(completedPnls, pnl);
      totalProfit := totalProfit + pnl;
      if pnl > 0.0 {
        winCount := winCount + 1;
      } else {
        lossCount := lossCount + 1;
      }
      completedOrders := completedOrders + [order];
      completedPnls := completedPnls + [pnl];
    }

    /**
     * `update_order`: the running order of the symbol is repriced with its PnL for the
     * configured investment, then closed when `UpdateDecision` names a reason, which is
     * returned with it; a symbol with no running order changes nothing.
     */
    method UpdateOrder(symbol: string, price: real, newSignalType: Option<string>, now: int)
      returns (order: Option<OrderData>, reason: Option<CloseReason>)
      requires Valid()
      requires forall o | o in activeOrders && o.symbol == symbol :: o.entryPrice != 0.0
      modifies this, set o | o in activeOrders && o.symbol == symbol
      ensures Valid()
      ensures !old(IsActive(symbol)) ==> order == None && reason == None && unchanged(this)
      ensures old(IsActive(symbol)) ==>
        var o := old(activeOrders)[IndexOf(old(activeOrders), symbol)];
        order == Some(o)
        && o.currentPrice == price
        && o.pnlPercentage == PnlPercentage(o.signalType, o.entryPrice, price)
        && o.pnl == PnlOf(initialInvestment, o.pnlPercentage)
        && reason == UpdateDecision(o.signalType, newSignalType, price, o.takeProfit, o.stopLoss)
      ensures old(IsActive(symbol)) && reason.None? ==>
        var o := old(activeOrders)[IndexOf(old(activeOrders), symbol)];
        unchanged(this) && o.status == old(o.status) && o.closeReason == old(o.closeReason)
      ensures old(IsActive(symbol)) && reason.Some? ==>
        var i := IndexOf(old(activeOrders), symbol);
        var o := old(activeOrders)[i];
        && activeOrders == old(activeOrders[..i] + activeOrders[i + 1..])
        && (forall s :: s in Symbols(activeOrders) <==> s in Symbols(old(activeOrders)) && s != symbol)
        && completedOrders == old(completedOrders) + [o]
        && completedPnls == old(completedPnls) + [o.pnl]
        && o.status == "COMPLETED" && o.closeReason == reason && o.closeTime == Some(now)
        && totalProfit == old(totalProfit) + o.pnl
        && (o.pnl > 0.0 ==> winCount == old(winCount) + 1 && lossCount == old(lossCount))
        && (o.pnl <= 0.0 ==> winCount == old(winCount) && lossCount == old(lossCount) + 1)
    {
      var i := IndexOf(activeOrders, symbol);
      if i < 0 {
        return None, None;
      }
      var o := activeOrders[i];
      o.UpdatePrice(price, initialInvestment);
      if newSignalType.Some? && newSignalType.value != o.signalType {
        order := CloseOrder(symbol, TrendReversal, now);
        reason := Some(TrendReversal);
        return;
      }
      var closeReason := o.CheckCloseConditions();
      if closeReason.Some? {
        order := CloseOrder(symbol, closeReason.value, now);
        reason := closeReason;
        return;
      }
      order, reason := Some(o), None;
    }

    /** `get_active_symbols`: the symbols with a running order, in the order they were opened, each once. */
    function GetActiveSymbols(): (r: seq<string>)
      requires Valid()
      reads this
      ensures |r| == |activeOrders| <= maxActiveOrders
      ensures forall s :: s in r <==> IsActive(s)
      ensures forall i, j :: 0 <= i < j < |r| ==> r[i] != r[j]
    {
      Symbols(activeOrders)
    }

    /**
     * `get_statistics`: the total profit, the trades closed so far as wins plus losses, the
     * win rate in percent (0 before the first close) and the number of running orders.
     */
    function GetStatistics(): (r: Statistics)
      reads this
      ensures r.totalTrades == r.winCount + r.lossCount && r.winCount == winCount && r.lossCount == lossCount
      ensures 0.0 <= r.winRate <= 100.0
      ensures r.totalTrades == 0 ==> r.winRate == 0.0
      ensures Valid() ==> r.totalTrades == |completedOrders| && r.totalProfit == Sum(completedPnls)
      ensures r.activeOrders == |activeOrders|
    {
      Entities.WinsPartition(completedPnls);
      var total := winCount + lossCount;
      Statistics(totalProfit, Entities.WinRate(winCount, total), total, winCount, lossCount, |activeOrders|)
    }
  }
}
