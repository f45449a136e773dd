/** The risk rules as decisions on values: what a signal may become, how a buy is sized, which holdings must go. */
module Risk {
  import opened Arithmetic
  import opened Domain
  import opened Ledgers

  datatype Limits = Limits(maxPositionSizePct: real, maxPortfolioAllocationPct: real, stopLossPct: Option<real>,
                           takeProfitPct: Option<real>, dailyLossLimitPct: Option<real>, maxOpenPositions: int)

  datatype Reason = NothingToDo | NoOpenPosition | AlreadyHolding | MaxPositionsReached | DailyLossReached
                  | NoEquityOrPrice | NoCapital | BelowOneShare

  datatype Decision = Rejected(reason: Reason) | Approved(order: Order)

  /** The most that may be spent: the position cap, what is left of the allocation, and the cash. */
  function OrderValue(limits: Limits, a: Account): real {
    Min(Min(Times(a.Equity(), limits.maxPositionSizePct),
            Times(a.Equity(), limits.maxPortfolioAllocationPct) - a.positionsValue),
        a.cash)
  }

  /** The source's test runs only for a recorded, non-zero start-of-day equity. */
  predicate DailyLossHit(limit: Option<real>, equity: real, baseline: Option<real>) {
    limit.Some? && baseline.Some? && baseline.value != 0.0
    && (equity - baseline.value) / baseline.value <= -limit.value
  }

  function Lots(value: real, price: real): int
    requires price > 0.0
  {
    (value / price).Floor
  }

  function EvaluateSell(sig: Signal, b: Book): Decision {
    if sig.symbol !in b.held || b.held[sig.symbol].quantity <= EPSILON then Rejected(NoOpenPosition)
    else Approved(Order(sig.symbol, Sell, b.held[sig.symbol].quantity, sig.strategyName))
  }

  function EvaluateBuy(limits: Limits, sig: Signal, price: real, a: Account, b: Book, baseline: Option<real>)
    : Decision
  {
    if sig.symbol in b.held then Rejected(AlreadyHolding)
    else if |b.order| >= limits.maxOpenPositions then Rejected(MaxPositionsReached)
    else if DailyLossHit(limits.dailyLossLimitPct, a.Equity(), baseline) then Rejected(DailyLossReached)
    else if a.Equity() <= 0.0 || price <= 0.0 then Rejected(NoEquityOrPrice)
    else if OrderValue(limits, a) <= 0.0 then Rejected(NoCapital)
    else
      var quantity := Lots(OrderValue(limits, a), price);
      if quantity < 1 then Rejected(BelowOneShare)
      else Approved(Order(sig.symbol, Buy, Shares(quantity), sig.strategyName))
  }

  function EvaluateSignal(limits: Limits, sig: Signal, price: real, a: Account, b: Book, baseline: Option<real>)
    : Decision
  {
    match sig.kind
    case HOLD => Rejected(NothingToDo)
    case SELL => EvaluateSell(sig, b)
    case BUY => EvaluateBuy(limits, sig, price, a, b, baseline)
  }

  function ChangePct(entry: real, price: real): real
    requires entry != 0.0
  {
    (price - entry) / entry
  }

  predicate HitsStop(stop: Option<real>, h: Holding, price: real) {
    h.avgEntryPrice > 0.0 && stop.Some? && ChangePct(h.avgEntryPrice, price) <= -stop.value
  }

  predicate HitsTarget(target: Option<real>, h: Holding, price: real) {
    h.avgEntryPrice > 0.0 && target.Some? && ChangePct(h.avgEntryPrice, price) >= target.value
  }

  function ExitOrder(stop: Option<real>, target: Option<real>, s: Symbol, h: Holding, price: real): Option<Order> {
    if HitsStop(stop, h, price) then Some(Order(s, Sell, h.quantity, STOP_LOSS_TAG))
    else if HitsTarget(target, h, price) then Some(Order(s, Sell, h.quantity, TAKE_PROFIT_TAG))
    else None
  }

  /** The forced exits among the first `n` positions of a book, in the book's order. */
  function ExitsAmong(stop: Option<real>, target: Option<real>, b: Book, prices: map<Symbol, real>, n: nat): seq<Order>
    requires n <= |b.order|
  {
    if n == 0 then []
    else
      var s := b.order[n - 1];
      var order := if s in b.held && s in prices then ExitOrder(stop, target, s, b.held[s], prices[s]) else None;
      ExitsAmong(stop, target, b, prices, n - 1) + (if order.Some? then [order.value] else [])
  }

  function CheckExits(stop: Option<real>, target: Option<real>, b: Book, prices: map<Symbol, real>): seq<Order> {
    ExitsAmong(stop, target, b, prices, |b.order|)
  }

  /** Exactly the holdings outside the band are ordered out, each once and each in full, under a risk tag. */
  ghost predicate SellsOut(b: Book, orders: seq<Order>) {
    && (forall i | 0 <= i < |orders| ::
          && orders[i].side.Sell? && IsRiskTag(orders[i].strategyName)
          && orders[i].symbol in b.held && orders[i].quantity == b.held[orders[i].symbol].quantity)
    && (forall i, j | 0 <= i < j < |orders| :: orders[i].symbol != orders[j].symbol)
  }

  ghost predicate Ordered(orders: seq<Order>, s: Symbol) {
    exists i :: 0 <= i < |orders| && orders[i].symbol == s
  }

  lemma SellsOutSnoc(b: Book, orders: seq<Order>)
    requires SellsOut(b, orders) && orders != []
    ensures var init, last := orders[..|orders| - 1], orders[|orders| - 1];
      && SellsOut(b, init) && !Ordered(init, last.symbol)
      && forall s :: Ordered(orders, s) <==> Ordered(init, s) || s == last.symbol
  {
    var init, last := orders[..|orders| - 1], orders[|orders| - 1];
    forall s | Ordered(init, s) ensures Ordered(orders, s) && s != last.symbol {
      var i :| 0 <= i < |init| && init[i].symbol == s;
      assert orders[i].symbol == s;
    }
    forall s | Ordered(orders, s) && s != last.symbol ensures Ordered(init, s) {
      var i :| 0 <= i < |orders| && orders[i].symbol == s;
      assert init[i].symbol == s;
    }
    assert orders[|orders| - 1].symbol == last.symbol;
  }

  predicate Breaches(stop: Option<real>, target: Option<real>, h: Holding, price: real) {
    HitsStop(stop, h, price) || HitsTarget(target, h, price)
  }

  lemma ExitOrderIsFullSale(stop: Option<real>, target: Option<real>, s: Symbol, h: Holding, price: real)
    ensures ExitOrder(stop, target, s, h, price).Some? <==> Breaches(stop, target, h, price)
    ensures ExitOrder(stop, target, s, h, price).Some? ==>
              var o := ExitOrder(stop, target, s, h, price).value;
              o.side.Sell? && o.symbol == s && o.quantity == h.quantity && IsRiskTag(o.strategyName)
  {
  }

  /** One more sale, of a holding not yet ordered out. */
  lemma SellsOutAppend(b: Book, orders: seq<Order>, o: Order)
    requires SellsOut(b, orders) && !Ordered(orders, o.symbol)
    requires o.side.Sell? && IsRiskTag(o.strategyName) && o.symbol in b.held && o.quantity == b.held[o.symbol].quantity
    ensures SellsOut(b, orders + [o])
    ensures forall s :: Ordered(orders + [o], s) <==> Ordered(orders, s) || s == o.symbol
  {
    hide IsRiskTag;
    var all := orders + [o];
    forall s | Ordered(orders, s) ensures Ordered(all, s) {
      var i :| 0 <= i < |orders| && orders[i].symbol == s;
      assert all[i].symbol == s;
    }
    assert all[|orders|].symbol == o.symbol;
  }

  lemma {:induction false} ExitsAmongAreExact(stop: Option<real>, target: Option<real>, b: Book,
                                              prices: map<Symbol, real>, n: nat)
    requires b.Valid() && n <= |b.order|
    ensures SellsOut(b, ExitsAmong(stop, target, b, prices, n))
    ensures forall s :: Ordered(ExitsAmong(stop, target, b, prices, n), s)
                   <==> s in b.order[..n] && s in prices && Breaches(stop, target, b.held[s], prices[s])
  {
    hide ExitOrder, Breaches, IsRiskTag;
    if n == 0 {
      assert ExitsAmong(stop, target, b, prices, n) == [];
    } else {
      var before, all := ExitsAmong(stop, target, b, prices, n - 1), ExitsAmong(stop, target, b, prices, n);
      ExitsAmongAreExact(stop, target, b, prices, n - 1);
      hide SellsOut, Ordered;
      var last := b.order[n - 1];
      assert b.order[..n] == b.order[..n - 1] + [last];
      assert !Ordered(before, last);
      if last in prices {
        ExitOrderIsFullSale(stop, target, last, b.held[last], prices[last]);
      }
      if last in prices && Breaches(stop, target, b.held[last], prices[last]) {
        SellsOutAppend(b, before, ExitOrder(stop, target, last, b.held[last], prices[last]).value);
      } else {
        assert all == before;
      }
    }
  }

  /** An order says why it was made; a position past both bounds is stopped out. */
  ghost predicate TaggedByCause(stop: Option<real>, target: Option<real>, b: Book, prices: map<Symbol, real>,
                                o: Order)
  {
    && o.symbol in b.held && o.symbol in prices
    && (o.strategyName == STOP_LOSS_TAG <==> HitsStop(stop, b.held[o.symbol], prices[o.symbol]))
    && (o.strategyName != STOP_LOSS_TAG ==>
          o.strategyName == TAKE_PROFIT_TAG && HitsTarget(target, b.held[o.symbol], prices[o.symbol]))
  }

  lemma {:induction false} ExitsAreTagged(stop: Option<real>, target: Option<real>, b: Book, prices: map<Symbol, real>,
                                          n: nat)
    requires n <= |b.order|
    ensures forall i | 0 <= i < |ExitsAmong(stop, target, b, prices, n)| ::
              TaggedByCause(stop, target, b, prices, ExitsAmong(stop, target, b, prices, n)[i])
  {
    hide HitsStop, HitsTarget;
    if n > 0 {
      ExitsAreTagged(stop, target, b, prices, n - 1);
    }
  }

  lemma CheckExitsByBreach(stop: Option<real>, target: Option<real>, b: Book, prices: map<Symbol, real>)
    requires b.Valid()
    ensures SellsOut(b, CheckExits(stop, target, b, prices))
    ensures forall s :: Ordered(CheckExits(stop, target, b, prices), s)
                   <==> s in b.held && s in prices && Breaches(stop, target, b.held[s], prices[s])
    ensures forall i | 0 <= i < |CheckExits(stop, target, b, prices)| ::
              TaggedByCause(stop, target, b, prices, CheckExits(stop, target, b, prices)[i])
  {
    hide TaggedByCause, SellsOut, Breaches, Ordered;
    ExitsAmongAreExact(stop, target, b, prices, |b.order|);
    ExitsAreTagged(stop, target, b, prices, |b.order|);
    assert b.order[..|b.order|] == b.order;
  }

  /** The bounds of the exit rules as prices: a percentage of the entry price below or above it. */
  lemma StopIsAPrice(stop: Option<real>, h: Holding, price: real)
    ensures HitsStop(stop, h, price)
       <==> h.avgEntryPrice > 0.0 && stop.Some? && price <= Times(h.avgEntryPrice, 1.0 - stop.value)
  {
    if h.avgEntryPrice > 0.0 && stop.Some? {
      RatioAtMost(price - h.avgEntryPrice, h.avgEntryPrice, -stop.value);
      TimesAdds(h.avgEntryPrice, 1.0, -stop.value);
      assert Times(h.avgEntryPrice, 1.0) == h.avgEntryPrice;
      hide Times;
    }
  }

  lemma TargetIsAPrice(target: Option<real>, h: Holding, price: real)
    ensures HitsTarget(target, h, price)
       <==> h.avgEntryPrice > 0.0 && target.Some? && price >= Times(h.avgEntryPrice, 1.0 + target.value)
  {
    if h.avgEntryPrice > 0.0 && target.Some? {
      RatioAtLeast(price - h.avgEntryPrice, h.avgEntryPrice, target.value);
      TimesAdds(h.avgEntryPrice, 1.0, target.value);
      assert Times(h.avgEntryPrice, 1.0) == h.avgEntryPrice;
      hide Times;
    }
  }

  /** Some order sells `s` under this tag. */
  ghost predicate OrderedAs(orders: seq<Order>, s: Symbol, tag: string) {
    exists i :: 0 <= i < |orders| && orders[i].symbol == s && orders[i].strategyName == tag
  }

  /** Orders come in the order of the positions they close. */
  ghost predicate InBookOrder(b: Book, orders: seq<Order>) {
    forall i, j, p, q | 0 <= i < j < |orders| && 0 <= p < |b.order| && 0 <= q < |b.order| ::
      orders[i].symbol == b.order[p] && orders[j].symbol == b.order[q] ==> p < q
  }

  lemma InOrderAppend(b: Book, orders: seq<Order>, o: Order, n: nat)
    requires b.Valid() && n < |b.order| && InBookOrder(b, orders) && o.symbol == b.order[n]
    requires forall i | 0 <= i < |orders| :: orders[i].symbol in b.order[..n]
    ensures InBookOrder(b, orders + [o])
  {
    var all := orders + [o];
    forall i, p | 0 <= i < |orders| && 0 <= p < |b.order| && orders[i].symbol == b.order[p] ensures p < n {
      var q :| 0 <= q < n && b.order[..n][q] == orders[i].symbol;
      assert b.order[q] == b.order[p];
    }
    forall i, j, p, q | && 0 <= i < j < |all| && 0 <= p < |b.order| && 0 <= q < |b.order|
                        && all[i].symbol == b.order[p] && all[j].symbol == b.order[q]
      ensures p < q {
      assert all[i] == orders[i];
      if j == |orders| {
        assert b.order[q] == b.order[n];
      } else {
        assert all[j] == orders[j];
      }
    }
  }

  lemma {:induction false} ExitsAreInOrder(stop: Option<real>, target: Option<real>, b: Book,
                                           prices: map<Symbol, real>, n: nat)
    requires b.Valid() && n <= |b.order|
    ensures InBookOrder(b, ExitsAmong(stop, target, b, prices, n))
    ensures forall i | 0 <= i < |ExitsAmong(stop, target, b, prices, n)| ::
              ExitsAmong(stop, target, b, prices, n)[i].symbol in b.order[..n]
  {
    hide HitsStop, HitsTarget, InBookOrder;
    if n == 0 {
      NoOrders(b);
    } else {
      var before, s := ExitsAmong(stop, target, b, prices, n - 1), b.order[n - 1];
      ExitsAreInOrder(stop, target, b, prices, n - 1);
      assert b.order[..n] == b.order[..n - 1] + [s];
      if s in b.held && s in prices && ExitOrder(stop, target, s, b.held[s], prices[s]).Some? {
        InOrderAppend(b, before, ExitOrder(stop, target, s, b.held[s], prices[s]).value, n - 1);
      } else {
        assert ExitsAmong(stop, target, b, prices, n) == before;
      }
    }
  }

  lemma NoOrders(b: Book)
    ensures InBookOrder(b, [])
  {
  }

  lemma TagsDiffer()
    ensures STOP_LOSS_TAG != TAKE_PROFIT_TAG
  {
    assert STOP_LOSS_TAG[5] != TAKE_PROFIT_TAG[5];
  }

  lemma TaggedIffByCause(stop: Option<real>, target: Option<real>, b: Book, prices: map<Symbol, real>,
                         orders: seq<Order>, s: Symbol)
    requires SellsOut(b, orders)
    requires forall t :: Ordered(orders, t)
                    <==> t in b.held && t in prices && Breaches(stop, target, b.held[t], prices[t])
    requires forall i | 0 <= i < |orders| :: TaggedByCause(stop, target, b, prices, orders[i])
    ensures OrderedAs(orders, s, STOP_LOSS_TAG) <==> s in b.held && s in prices && HitsStop(stop, b.held[s], prices[s])
    ensures OrderedAs(orders, s, TAKE_PROFIT_TAG)
       <==> && s in b.held && s in prices && HitsTarget(target, b.held[s], prices[s])
            && !HitsStop(stop, b.held[s], prices[s])
  {
    hide HitsStop, HitsTarget;
    TagsDiffer();
    if Ordered(orders, s) {
      var i :| 0 <= i < |orders| && orders[i].symbol == s;
      assert TaggedByCause(stop, target, b, prices, orders[i]);
    }
  }

  /** The forced exits, told by prices alone: a held position with a quote and a positive entry price is stopped out
      if and only if a stop is set and the quote is at most that far below the entry price; it is taken off with its
      profit if and only if that is not so, a target is set and the quote is at least that far above. Each is ordered
      out once and in full, in the order of the positions. */
  lemma CheckExitsIsExact(stop: Option<real>, target: Option<real>, b: Book, prices: map<Symbol, real>)
    requires b.Valid()
    ensures var orders := CheckExits(stop, target, b, prices);
      && SellsOut(b, orders) && InBookOrder(b, orders)
      && (forall s :: OrderedAs(orders, s, STOP_LOSS_TAG)
                 <==> && s in b.held && s in prices && b.held[s].avgEntryPrice > 0.0
                      && stop.Some? && prices[s] <= Times(b.held[s].avgEntryPrice, 1.0 - stop.value))
      && (forall s :: OrderedAs(orders, s, TAKE_PROFIT_TAG)
                 <==> && s in b.held && s in prices && b.held[s].avgEntryPrice > 0.0
                      && target.Some? && prices[s] >= Times(b.held[s].avgEntryPrice, 1.0 + target.value)
                      && (stop.Some? ==> prices[s] > Times(b.held[s].avgEntryPrice, 1.0 - stop.value)))
  {
    var orders := CheckExits(stop, target, b, prices);
    ExitsAreInOrder(stop, target, b, prices, |b.order|);
    CheckExitsByBreach(stop, target, b, prices);
    hide CheckExits, SellsOut, Ordered, OrderedAs, Breaches, HitsStop, HitsTarget, TaggedByCause, Times, InBookOrder;
    forall s | true
      ensures OrderedAs(orders, s, STOP_LOSS_TAG)
         <==> && s in b.held && s in prices && b.held[s].avgEntryPrice > 0.0
              && stop.Some? && prices[s] <= Times(b.held[s].avgEntryPrice, 1.0 - stop.value)
      ensures OrderedAs(orders, s, TAKE_PROFIT_TAG)
         <==> && s in b.held && s in prices && b.held[s].avgEntryPrice > 0.0
              && target.Some? && prices[s] >= Times(b.held[s].avgEntryPrice, 1.0 + target.value)
              && (stop.Some? ==> prices[s] > Times(b.held[s].avgEntryPrice, 1.0 - stop.value)) {
      TaggedIffByCause(stop, target, b, prices, orders, s);
      if s in b.held && s in prices {
        StopIsAPrice(stop, b.held[s], prices[s]);
        TargetIsAPrice(target, b.held[s], prices[s]);
      }
    }
  }

  lemma LotsFit(value: real, price: real, n: int)
    requires price > 0.0
    ensures Times(Shares(Lots(value, price)), price) <= value
    ensures Times(Shares(n), price) <= value ==> n <= Lots(value, price)
  {
    hide Times;
    var ratio := value / price;
    QuotientTimes(value, price);
    ProductMonotone(Shares(Lots(value, price)), ratio, price);
    if n > Lots(value, price) {
      assert Shares(n) > ratio;
      ProductStrict(ratio, Shares(n), price);
    }
  }

  lemma BelowOrderValue(limits: Limits, a: Account, value: real)
    ensures value <= OrderValue(limits, a)
       <==> && value <= a.cash
            && value <= Times(a.Equity(), limits.maxPositionSizePct)
            && value + a.positionsValue <= Times(a.Equity(), limits.maxPortfolioAllocationPct)
  {
    hide Times;
  }

  /** Sizing is sound and maximal: the order is a whole number of shares, at least one, that fits the position cap,
      the remaining allocation and the cash, and every number of shares that fits all three is at most that. */
  lemma SizingIsMaximal(limits: Limits, sig: Signal, price: real, a: Account, b: Book, baseline: Option<real>, n: int)
    requires EvaluateBuy(limits, sig, price, a, b, baseline).Approved?
    ensures var o := EvaluateBuy(limits, sig, price, a, b, baseline).order;
      && o.side.Buy? && o.symbol == sig.symbol && o.strategyName == sig.strategyName
      && Whole(o.quantity) && o.quantity >= 1.0
      && Times(o.quantity, price) <= a.cash
      && Times(o.quantity, price) <= Times(a.Equity(), limits.maxPositionSizePct)
      && Times(o.quantity, price) + a.positionsValue <= Times(a.Equity(), limits.maxPortfolioAllocationPct)
    ensures && Times(Shares(n), price) <= a.cash
            && Times(Shares(n), price) <= Times(a.Equity(), limits.maxPositionSizePct)
            && Times(Shares(n), price) + a.positionsValue <= Times(a.Equity(), limits.maxPortfolioAllocationPct)
            ==> Shares(n) <= EvaluateBuy(limits, sig, price, a, b, baseline).order.quantity
  {
    hide Times, DailyLossHit;
    LotsFit(OrderValue(limits, a), price, n);
    BelowOrderValue(limits, a, Times(Shares(n), price));
    BelowOrderValue(limits, a, Times(Shares(Lots(OrderValue(limits, a), price)), price));
    hide OrderValue, Lots;
  }

  /** The daily loss as an amount: equity has fallen to the baseline less the limit. A negative baseline turns the
      comparison round, and a baseline of zero, like none, leaves the gate open. */
  lemma DailyLossIsAnAmount(limit: Option<real>, equity: real, baseline: Option<real>)
    ensures DailyLossHit(limit, equity, baseline)
       <==> && limit.Some? && baseline.Some?
            && (baseline.value > 0.0 ==> equity <= Times(baseline.value, 1.0 - limit.value))
            && (baseline.value < 0.0 ==> equity >= Times(baseline.value, 1.0 - limit.value))
            && baseline.value != 0.0
  {
    if limit.Some? && baseline.Some? && baseline.value != 0.0 {
      var e0, l := baseline.value, limit.value;
      TimesAdds(e0, 1.0, -l);
      assert Times(e0, 1.0) == e0;
      if e0 > 0.0 {
        RatioAtMost(equity - e0, e0, -l);
      } else {
        var q := (e0 - equity) / -e0;
        QuotientTimes(e0 - equity, -e0);
        TimesNegates(q, e0);
        QuotientIs(equity - e0, e0, q);
        RatioAtMost(e0 - equity, -e0, -l);
        TimesNegates(e0, -l);
      }
      hide Times;
    }
  }

  /** A buy is approved exactly when every gate is open and one share fits all three caps. */
  lemma BuyApprovedIff(limits: Limits, sig: Signal, price: real, a: Account, b: Book, baseline: Option<real>)
    ensures EvaluateBuy(limits, sig, price, a, b, baseline).Approved?
       <==> && sig.symbol !in b.held && |b.order| < limits.maxOpenPositions
            && (limits.dailyLossLimitPct.Some? && baseline.Some? ==>
                  && (baseline.value > 0.0 ==>
                        a.Equity() > Times(baseline.value, 1.0 - limits.dailyLossLimitPct.value))
                  && (baseline.value < 0.0 ==>
                        a.Equity() < Times(baseline.value, 1.0 - limits.dailyLossLimitPct.value)))
            && a.Equity() > 0.0 && 0.0 < price <= a.cash
            && price <= Times(a.Equity(), limits.maxPositionSizePct)
            && price + a.positionsValue <= Times(a.Equity(), limits.maxPortfolioAllocationPct)
  {
    DailyLossIsAnAmount(limits.dailyLossLimitPct, a.Equity(), baseline);
    BelowOrderValue(limits, a, price);
    hide DailyLossHit;
    if price > 0.0 {
      LotsFit(OrderValue(limits, a), price, 1);
      assert Times(Shares(1), price) == price;
      if Lots(OrderValue(limits, a), price) >= 1 {
        ProductMonotone(Shares(1), Shares(Lots(OrderValue(limits, a), price)), price);
        assert price <= OrderValue(limits, a);
      }
    }
    hide OrderValue, Lots, Times;
  }

  /** Which signals pass: none that says HOLD; a SELL exactly for a symbol held in more than the tolerance, whatever
      the other gates say, and then for all of it; a BUY exactly as a buy is approved. */
  lemma SignalApprovedIff(limits: Limits, sig: Signal, price: real, a: Account, b: Book, baseline: Option<real>)
    ensures var decision := EvaluateSignal(limits, sig, price, a, b, baseline);
      && (sig.kind == HOLD ==> decision.Rejected?)
      && (sig.kind == BUY ==> decision == EvaluateBuy(limits, sig, price, a, b, baseline))
      && (sig.kind == SELL ==>
            (decision.Approved? <==> sig.symbol in b.held && b.held[sig.symbol].quantity > EPSILON))
      && (sig.kind == SELL && decision.Approved? ==>
            && decision.order.side.Sell? && decision.order.symbol == sig.symbol
            && decision.order.quantity == b.held[sig.symbol].quantity
            && decision.order.strategyName == sig.strategyName)
  {
    hide EvaluateBuy;
  }
}
