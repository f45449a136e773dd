/** The risk manager as the source runs it: over lists of shared position objects. */
module RiskManagers {
  import opened Domain
  import opened Ledgers
  import opened Portfolios
  import opened Risk

  class RiskManager {
    const limits: Limits

    constructor (limits: Limits)
      ensures this.limits == limits
    {
      this.limits := limits;
    }

    /** The first position in a symbol, if any. */
    method Find(s: Symbol, positions: seq<Position>, ghost b: Book) returns (found: Option<Position>)
      requires b.Valid() && Lists(positions, b)
      ensures found.Some? <==> s in b.held
      ensures found.Some? ==> found.value in positions && found.value.AsHolding() == b.held[s]
    {
      for i := 0 to |positions|
        invariant forall j | 0 <= j < i :: b.order[j] != s
      {
        if positions[i].symbol == s {
          return Some(positions[i]);
        }
      }
      return None;
    }

    method EvaluateSignal(sig: Signal, price: real, account: Account, positions: seq<Position>,
                          dailyStartEquity: Option<real>, ghost b: Book)
      returns (d: Decision)
      requires b.Valid() && Lists(positions, b)
      ensures d == Risk.EvaluateSignal(limits, sig, price, account, b, dailyStartEquity)
    {
      match sig.kind {
        case HOLD =>
          d := Rejected(NothingToDo);
        case SELL =>
          d := EvaluateSell(sig, positions, b);
        case BUY =>
          d := EvaluateBuy(sig, price, account, positions, dailyStartEquity, b);
      }
    }

    method EvaluateSell(sig: Signal, positions: seq<Position>, ghost b: Book) returns (d: Decision)
      requires b.Valid() && Lists(positions, b)
      ensures d == Risk.EvaluateSell(sig, b)
    {
      var position := Find(sig.symbol, positions, b);
      if position.None? || position.value.quantity <= EPSILON {
        return Rejected(NoOpenPosition);
      }
      return Approved(Order(sig.symbol, Sell, position.value.quantity, sig.strategyName));
    }

    method EvaluateBuy(sig: Signal, price: real, account: Account, positions: seq<Position>,
                       dailyStartEquity: Option<real>, ghost b: Book)
      returns (d: Decision)
      requires b.Valid() && Lists(positions, b)
      ensures d == Risk.EvaluateBuy(limits, sig, price, account, b, dailyStartEquity)
    {
      var held := Find(sig.symbol, positions, b);
      if held.Some? {
        return Rejected(AlreadyHolding);
      }
      if |positions| >= limits.maxOpenPositions {
        return Rejected(MaxPositionsReached);
      }
      if DailyLossHit(limits.dailyLossLimitPct, account.Equity(), dailyStartEquity) {
        return Rejected(DailyLossReached);
      }
      if account.Equity() <= 0.0 || price <= 0.0 {
        return Rejected(NoEquityOrPrice);
      }
      var orderValue := OrderValue(limits, account);
      if orderValue <= 0.0 {
        return Rejected(NoCapital);
      }
      var quantity := Lots(orderValue, price);
      if quantity < 1 {
        return Rejected(BelowOneShare);
      }
      return Approved(Order(sig.symbol, Buy, Shares(quantity), sig.strategyName));
    }

    /** Forced exits, in the order of the positions. */
    method CheckExits(positions: seq<Position>, prices: map<Symbol, real>, ghost b: Book) returns (orders: seq<Order>)
      requires b.Valid() && Lists(positions, b)
      ensures orders == Risk.CheckExits(limits.stopLossPct, limits.takeProfitPct, b, prices)
    {
      orders := [];
      for i := 0 to |positions|
        invariant orders == ExitsAmong(limits.stopLossPct, limits.takeProfitPct, b, prices, i)
      {
        var p := positions[i];
        if p.symbol in prices && p.avgEntryPrice > 0.0 {
          var changePct := ChangePct(p.avgEntryPrice, prices[p.symbol]);
          if limits.stopLossPct.Some? && changePct <= -limits.stopLossPct.value {
            orders := orders + [Order(p.symbol, Sell, p.quantity, STOP_LOSS_TAG)];
          } else if limits.takeProfitPct.Some? && changePct >= limits.takeProfitPct.value {
            orders := orders + [Order(p.symbol, Sell, p.quantity, TAKE_PROFIT_TAG)];
          }
        }
        hide ChangePct;
      }
    }
  }
}
