/** What every day of every backtest keeps: no exception, an exact account of equity, and the exit band. */
module BacktestLaws {
  import opened Arithmetic
  import opened Backtests
  import opened Discipline
  import opened Domain
  import opened Ledgers
  import opened Risk
  import opened Trading

  ghost predicate Quotes(m: Market, prices: map<Symbol, real>) {
    forall k: nat :: m.prices(k) == prices
  }

  /** The engine has no repository in a backtest. */
  predicate Backtestable(c: Config) {
    !c.terms.persist
  }

  /** The stop-loss and take-profit percentages that are set are positive. */
  predicate PositiveBand(c: Config) {
    && (c.limits.stopLossPct.Some? ==> c.limits.stopLossPct.value > 0.0)
    && (c.limits.takeProfitPct.Some? ==> c.limits.takeProfitPct.value > 0.0)
  }

  /** Every held symbol has a quote, and was entered at a positive price. */
  ghost predicate Quoted(l: Ledger, prices: map<Symbol, real>) {
    && l.book.Valid() && l.book.held.Keys <= prices.Keys
    && forall s | s in l.book.held :: l.book.held[s].avgEntryPrice > 0.0
  }

  ghost predicate InBand(c: Config, l: Ledger, prices: map<Symbol, real>) {
    forall s | s in l.book.held && s in prices ::
      !Breaches(c.limits.stopLossPct, c.limits.takeProfitPct, l.book.held[s], prices[s])
  }

  /** A completed trade at the day's price; a buy only at a positive one. */
  predicate AtQuote(prices: map<Symbol, real>, e: Entry) {
    && e.fill.symbol in prices && e.fill.price == prices[e.fill.symbol]
    && (e.fill.side.Buy? ==> e.fill.price > 0.0)
  }

  lemma SubmitAtQuote(c: Config, d: Desk, m: Market, k: nat, o: Order, prices: map<Symbol, real>)
    requires Quotes(m, prices) && Quoted(d.ledger, prices) && Issuable(c, d.ledger, o) && !c.terms.persist
    requires o.symbol in prices && (o.side.Buy? ==> prices[o.symbol] > 0.0)
    ensures var step := Submit(c.terms, d, m, k, o);
      && !step.raised
      && (forall i | 0 <= i < |step.log| :: AtQuote(prices, step.log[i]))
      && (step.log == [] <==> o.side.Buy? && !d.ledger.unlimited
                              && Times(o.quantity, prices[o.symbol]) + c.terms.commission > d.ledger.cash + EPSILON)
      && (step.log != [] ==> step.log[0].fill == FillOf(c.terms, m, k, o))
  {
    var f := FillOf(c.terms, m, k, o);
    assert Notional(f) == Times(o.quantity, prices[o.symbol]);
    hide Profit, Notional, Averaged, Times;
  }

  lemma BuyAtQuote(c: Config, l: Ledger, e: Entry, prices: map<Symbol, real>)
    requires Quoted(l, prices) && LegalMove(c, l, e) && AtQuote(prices, e) && e.fill.side.Buy?
    ensures Equity(After(l, e.fill), prices) == Equity(l, prices) - c.terms.commission
  {
    var f := e.fill;
    var h := Holding(f.quantity, f.price, f.timestamp);
    assert Value(h, prices[f.symbol]) == Notional(f);
    BoughtIn(l, f);
    hide ApplyFill, Value, Notional, PositionsValue, Opened;
    OpenedTotals(l.book, f.symbol, h, prices);
  }

  lemma SellAtQuote(c: Config, l: Ledger, e: Entry, prices: map<Symbol, real>)
    requires Quoted(l, prices) && LegalMove(c, l, e) && AtQuote(prices, e) && e.fill.side.Sell?
    ensures Equity(After(l, e.fill), prices) == Equity(l, prices) - c.terms.commission
  {
    var f := e.fill;
    assert Value(l.book.held[f.symbol], prices[f.symbol]) == Notional(f);
    SoldOut(l, f);
    hide ApplyFill, Value, Notional, PositionsValue, Closed;
    ClosedTotals(l.book, f.symbol, prices);
  }

  lemma MoveStaysQuoted(c: Config, l: Ledger, e: Entry, prices: map<Symbol, real>)
    requires Quoted(l, prices) && LegalMove(c, l, e) && AtQuote(prices, e)
    ensures Quoted(After(l, e.fill), prices)
  {
    AfterKeepsBook(l, e.fill);
    if e.fill.side.Buy? {
      BoughtIn(l, e.fill);
    } else {
      SoldOut(l, e.fill);
    }
    hide ApplyFill, Notional, After;
  }

  lemma {:induction false} EquityPaysCommissions(c: Config, l: Ledger, log: seq<Entry>, prices: map<Symbol, real>)
    requires Quoted(l, prices) && Disciplined(c, l, log)
    requires forall i | 0 <= i < |log| :: AtQuote(prices, log[i])
    ensures Quoted(End(l, log), prices)
    ensures Equity(End(l, log), prices) == Equity(l, prices) - Times(Shares(|log|), c.terms.commission)
  {
    if log != [] {
      DisciplinedInit(c, l, log);
      EquityPaysCommissions(c, l, log[..|log| - 1], prices);
      EndSnoc(l, log);
      TimesAddsLeft(Shares(|log| - 1), 1.0, c.terms.commission);
      assert Times(1.0, c.terms.commission) == c.terms.commission;
      hide Times, Equity, LegalMove, Quoted, AtQuote;
      var before, e := End(l, log[..|log| - 1]), log[|log| - 1];
      MoveStaysQuoted(c, before, e, prices);
      if e.fill.side.Buy? {
        BuyAtQuote(c, before, e, prices);
      } else {
        SellAtQuote(c, before, e, prices);
      }
    } else {
      assert Times(0.0, c.terms.commission) == 0.0;
    }
  }

  lemma ExitFills(c: Config, d: Desk, m: Market, k: nat, o: Order, prices: map<Symbol, real>)
    requires Quotes(m, prices) && Quoted(d.ledger, prices) && Issuable(c, d.ledger, o) && o.side.Sell?
    requires !c.terms.persist
    ensures var step := Submit(c.terms, d, m, k, o);
      && !step.raised && |step.log| == 1 && AtQuote(prices, step.log[0])
      && step.desk.ledger.book == Closed(d.ledger.book, o.symbol)
  {
    SubmitAtQuote(c, d, m, k, o, prices);
    SubmitIsOrderly(c, d, m, k, o);
    SoldOut(d.ledger, FillOf(c.terms, m, k, o));
    hide ApplyFill, AtQuote;
    assert AtQuote(prices, Submit(c.terms, d, m, k, o).log[0]);
  }

  /** Every exit order of a day fills, so no holding that was outside the band is left. */
  lemma {:induction false} ExitsFill(c: Config, d: Desk, m: Market, k: nat, orders: seq<Order>,
                                     prices: map<Symbol, real>)
    requires Quotes(m, prices) && Quoted(d.ledger, prices) && SellsOut(d.ledger.book, orders) && !c.terms.persist
    ensures var step := SubmitAll(c.terms, d, m, k, orders);
      && !step.raised && |step.log| == |orders|
      && (forall i | 0 <= i < |step.log| :: AtQuote(prices, step.log[i]))
      && (forall s | s in step.desk.ledger.book.held :: !Ordered(orders, s))
  {
    if orders != [] {
      var init, o := orders[..|orders| - 1], orders[|orders| - 1];
      var before := SubmitAll(c.terms, d, m, k, init);
      LastExitIsIssuable(c, d, m, k, orders);
      hide AtQuote, Submit, Issuable, SellsOut, Disciplined, Ordered;
      ExitsFill(c, d, m, k, init, prices);
      EquityPaysCommissions(c, d.ledger, before.log, prices);
      hide Quoted, Orderly, End;
      ExitFills(c, before.desk, m, before.moment, o, prices);
    }
  }

  /** A day's call: no exception, legal moves at the day's quotes. */
  ghost predicate Sound(c: Config, d: Desk, prices: map<Symbol, real>, step: Step) {
    && !step.raised
    && step.desk.ledger == End(d.ledger, step.log) && Disciplined(c, d.ledger, step.log)
    && (forall i | 0 <= i < |step.log| :: AtQuote(prices, step.log[i]))
    && step.desk.baseline == d.baseline
  }

  lemma ExitChecksAreSound(c: Config, d: Desk, m: Market, k: nat, prices: map<Symbol, real>)
    requires Quotes(m, prices) && Quoted(d.ledger, prices) && !c.terms.persist
    ensures Sound(c, d, prices, RunExitChecks(c, d, m, k))
    ensures InBand(c, RunExitChecks(c, d, m, k).desk.ledger, prices)
  {
    var stop, target := c.limits.stopLossPct, c.limits.takeProfitPct;
    assert m.prices(k) == prices;
    var orders := CheckExits(stop, target, d.ledger.book, prices);
    CheckExitsByBreach(stop, target, d.ledger.book, prices);
    RunExitChecksIsOrderly(c, d, m, k);
    hide CheckExits, SubmitAll, Ordered, Breaches, SellsOut, AtQuote, Disciplined;
    ExitsFill(c, d, m, k + 1, orders, prices);
    ExitsAreOrderly(c, d, m, k + 1, orders);
  }

  /** The account every call of a day sees. */
  lemma AccountAtQuote(l: Ledger, m: Market, k: nat, prices: map<Symbol, real>)
    requires Quotes(m, prices) && Quoted(l, prices)
    ensures GetAccount(l, m, k) == Some(Account(m.clock(k), l.cash, PositionsValue(l.book, prices)))
    ensures GetAccount(l, m, k).value.Equity() == Equity(l, prices)
  {
    assert m.prices(k) == prices;
    hide PositionsValue;
  }

  function DecisionAt(c: Config, d: Desk, sig: Signal, prices: map<Symbol, real>, time: int): Decision
    requires sig.symbol in prices
  {
    EvaluateSignal(c.limits, sig, prices[sig.symbol],
                   Account(time, d.ledger.cash, PositionsValue(d.ledger.book, prices)), d.ledger.book, d.baseline)
  }

  /** A signal is dropped after approval exactly when it is a buy that its commission makes unaffordable. */
  lemma SignalAtQuote(c: Config, d: Desk, m: Market, k: nat, sig: Signal, prices: map<Symbol, real>)
    requires Quotes(m, prices) && Quoted(d.ledger, prices) && !c.terms.persist
    requires sig.symbol in prices && sig.strategyName == c.terms.strategyName && !sig.kind.HOLD?
    ensures Sound(c, d, prices, ProcessSignal(c, d, m, k, sig))
    ensures var decision := DecisionAt(c, d, sig, prices, m.clock(k + 1));
      && (decision.Rejected? ==> ProcessSignal(c, d, m, k, sig).log == [])
      && (decision.Approved? ==>
            (ProcessSignal(c, d, m, k, sig).log == []
             <==> sig.kind.BUY? && !d.ledger.unlimited
                  && Times(decision.order.quantity, prices[sig.symbol]) + c.terms.commission > d.ledger.cash + EPSILON))
    ensures ProcessSignal(c, d, m, k, sig).log != [] ==>
              var o, e := DecisionAt(c, d, sig, prices, m.clock(k + 1)).order, ProcessSignal(c, d, m, k, sig).log[0];
              && |ProcessSignal(c, d, m, k, sig).log| == 1 && e.tag == c.terms.strategyName
              && e.fill.symbol == sig.symbol && e.fill.side == o.side && e.fill.quantity == o.quantity
              && e.fill.price == prices[sig.symbol] && e.fill.commission == c.terms.commission
  {
    AccountAtQuote(d.ledger, m, k + 1, prices);
    assert m.prices(k) == prices;
    var a := GetAccount(d.ledger, m, k + 1).value;
    var decision := DecisionAt(c, d, sig, prices, m.clock(k + 1));
    ProcessSignalIsOrderly(c, d, m, k, sig);
    if decision.Approved? {
      if sig.kind.BUY? {
        BuyApprovedIff(c.limits, sig, prices[sig.symbol], a, d.ledger.book, d.baseline);
        SizingIsMaximal(c.limits, sig, prices[sig.symbol], a, d.ledger.book, d.baseline, 1);
      }
      assert decision.order.symbol == sig.symbol && (decision.order.side.Buy? <==> sig.kind.BUY?);
      hide EvaluateBuy, Times, PositionsValue, Disciplined, AtQuote;
      assert Issuable(c, d.ledger, decision.order);
      SubmitAtQuote(c, d, m, k + 2, decision.order, prices);
    }
  }

  /** Without a commission every approved order fills: a buy is sized to the cash it will find. */
  lemma FreeOrdersAlwaysFill(c: Config, d: Desk, m: Market, k: nat, sig: Signal, prices: map<Symbol, real>)
    requires Quotes(m, prices) && Quoted(d.ledger, prices) && !c.terms.persist && c.terms.commission <= 0.0
    requires sig.symbol in prices && sig.strategyName == c.terms.strategyName && !sig.kind.HOLD?
    ensures DecisionAt(c, d, sig, prices, m.clock(k + 1)).Approved? <==> ProcessSignal(c, d, m, k, sig).log != []
  {
    SignalAtQuote(c, d, m, k, sig, prices);
    var decision := DecisionAt(c, d, sig, prices, m.clock(k + 1));
    if decision.Approved? && sig.kind.BUY? {
      var a := Account(m.clock(k + 1), d.ledger.cash, PositionsValue(d.ledger.book, prices));
      SizingIsMaximal(c.limits, sig, prices[sig.symbol], a, d.ledger.book, d.baseline, 1);
    }
    hide ProcessSignal, Times;
  }

  lemma SoundThenSound(c: Config, d: Desk, prices: map<Symbol, real>, a: Step, b: Step)
    requires Sound(c, d, prices, a) && Sound(c, a.desk, prices, b)
    ensures Sound(c, d, prices, b.(log := a.log + b.log))
  {
    DisciplinedAppend(c, d.ledger, a.log, b.log);
    hide AtQuote, Disciplined;
  }

  lemma SoundStaysQuoted(c: Config, d: Desk, prices: map<Symbol, real>, step: Step)
    requires Quoted(d.ledger, prices) && Sound(c, d, prices, step)
    ensures Quoted(step.desk.ledger, prices)
    ensures Equity(step.desk.ledger, prices)
         == Equity(d.ledger, prices) - Times(Shares(|step.log|), c.terms.commission)
  {
    EquityPaysCommissions(c, d.ledger, step.log, prices);
  }

  ghost predicate WindowsQuoted(windows: seq<(Symbol, Window)>, prices: map<Symbol, real>) {
    forall i | 0 <= i < |windows| :: windows[i].0 in prices
  }

  lemma {:induction false} SignalsAreSound(plan: Plan, d: Desk, m: Market, k: nat, windows: seq<(Symbol, Window)>,
                                           prices: map<Symbol, real>)
    requires Quotes(m, prices) && Quoted(d.ledger, prices) && !plan.config.terms.persist
    requires WindowsQuoted(windows, prices)
    ensures Sound(plan.config, d, prices, ProcessAll(plan, d, m, k, windows))
  {
    if windows != [] {
      var before := ProcessAll(plan, d, m, k, windows[..|windows| - 1]);
      SignalsAreSound(plan, d, m, k, windows[..|windows| - 1], prices);
      SoundStaysQuoted(plan.config, d, prices, before);
      OneSignalIsSound(plan, before.desk, m, before.moment, windows[|windows| - 1], prices);
      hide Sound, Quoted, Quotes, ProcessSignal;
      var sig := SignalFor(plan, windows[|windows| - 1]);
      SoundThenSound(plan.config, d, prices, before, ProcessSignal(plan.config, before.desk, m, before.moment, sig));
      SoundDidNotRaise(plan.config, d, prices, before);
    }
  }

  lemma SoundDidNotRaise(c: Config, d: Desk, prices: map<Symbol, real>, step: Step)
    requires Sound(c, d, prices, step)
    ensures !step.raised
  {
  }

  lemma OneSignalIsSound(plan: Plan, d: Desk, m: Market, k: nat, w: (Symbol, Window), prices: map<Symbol, real>)
    requires Quotes(m, prices) && Quoted(d.ledger, prices) && !plan.config.terms.persist && w.0 in prices
    ensures Sound(plan.config, d, prices, ProcessSignal(plan.config, d, m, k, SignalFor(plan, w)))
  {
    var sig := SignalFor(plan, w);
    if sig.kind.HOLD? {
      assert ProcessSignal(plan.config, d, m, k, sig) == Step(d, [], k, false);
      assert End(d.ledger, []) == d.ledger;
    } else {
      SignalAtQuote(plan.config, d, m, k, sig, prices);
    }
  }

  lemma MoveStaysInBand(c: Config, l: Ledger, e: Entry, prices: map<Symbol, real>)
    requires PositiveBand(c) && Quoted(l, prices) && InBand(c, l, prices) && LegalMove(c, l, e) && AtQuote(prices, e)
    ensures InBand(c, After(l, e.fill), prices)
  {
    AfterKeepsBook(l, e.fill);
    if e.fill.side.Buy? {
      BoughtIn(l, e.fill);
      assert ChangePct(e.fill.price, e.fill.price) == 0.0;
    } else {
      SoldOut(l, e.fill);
    }
    hide ApplyFill, After, ChangePct;
  }

  lemma {:induction false} LogStaysInBand(c: Config, l: Ledger, log: seq<Entry>, prices: map<Symbol, real>)
    requires PositiveBand(c) && Quoted(l, prices) && InBand(c, l, prices) && Disciplined(c, l, log)
    requires forall i | 0 <= i < |log| :: AtQuote(prices, log[i])
    ensures InBand(c, End(l, log), prices)
  {
    if log != [] {
      var init := log[..|log| - 1];
      DisciplinedInit(c, l, log);
      LogStaysInBand(c, l, init, prices);
      EquityPaysCommissions(c, l, init, prices);
      EndSnoc(l, log);
      hide InBand, Quoted, AtQuote, LegalMove;
      MoveStaysInBand(c, End(l, init), log[|log| - 1], prices);
    }
  }

  /** One day of a backtest, from a state whose holdings are all quoted: it does not raise, its log is disciplined and
      at the day's quotes, equity falls by the commissions and nothing else, and it ends inside a positive exit band. */
  ghost predicate GoodDay(plan: Plan, p: Progress, p': Progress, date: int, prices: map<Symbol, real>) {
    && !p'.raised && |p'.days| == |p.days| + 1 && p'.days[..|p.days|] == p.days
    && var r := p'.days[|p.days|];
    && r.date == date && r.opening == Equity(p.desk.ledger, prices)
    && r.closing == p'.desk.ledger == End(p.desk.ledger, r.log)
    && Disciplined(plan.config, p.desk.ledger, r.log)
    && (forall i | 0 <= i < |r.log| :: AtQuote(prices, r.log[i]))
    && r.equity == Equity(r.closing, prices)
    && r.equity == r.opening - Times(Shares(|r.log|), plan.config.terms.commission)
    && Quoted(r.closing, prices) && (PositiveBand(plan.config) ==> InBand(plan.config, r.closing, prices))
  }

  lemma DayIsGood(plan: Plan, p: Progress, date: int, prices: map<Symbol, real>, windows: seq<(Symbol, Window)>)
    requires Backtestable(plan.config) && Quoted(p.desk.ledger, prices) && WindowsQuoted(windows, prices)
    ensures GoodDay(plan, p, Day(plan, p, date, prices, windows), date, prices)
  {
    var c, m := plan.config, DayMarket(plan, prices);
    assert Quotes(m, prices);
    AccountAtQuote(p.desk.ledger, m, p.moment, prices);
    var start := StartNewTradingDay(p.desk, m, p.moment);
    assert start.desk.ledger == p.desk.ledger;
    var exits := RunExitChecks(c, start.desk, m, start.moment);
    ExitChecksAreSound(c, start.desk, m, start.moment, prices);
    SoundStaysQuoted(c, start.desk, prices, exits);
    var signals := ProcessAll(plan, exits.desk, m, exits.moment, windows);
    SignalsAreSound(plan, exits.desk, m, exits.moment, windows, prices);
    hide RunExitChecks, ProcessAll, Quoted, Equity, InBand;
    SoundThenSound(c, start.desk, prices, exits, signals);
    SoundStaysQuoted(c, start.desk, prices, signals.(log := exits.log + signals.log));
    if PositiveBand(c) {
      LogStaysInBand(c, exits.desk.ledger, signals.log, prices);
    }
    AccountAtQuote(signals.desk.ledger, m, signals.moment, prices);
  }

  lemma BoughtTotals(l: Ledger, f: Fill, prices: map<Symbol, real>)
    requires l.book.Valid() && f.side.Buy? && f.symbol !in l.book.held && ApplyFill(l, f).Filled?
    requires f.symbol in prices && prices[f.symbol] == f.price
    ensures f.symbol in After(l, f).book.held
    ensures Value(After(l, f).book.held[f.symbol], prices[f.symbol]) == Notional(f)
    ensures PositionsValue(After(l, f).book, prices) == PositionsValue(l.book, prices) + Notional(f)
    ensures After(l, f).cash == l.cash - Notional(f) - f.commission
  {
    var h := Holding(f.quantity, f.price, f.timestamp);
    assert Value(h, prices[f.symbol]) == Notional(f);
    BoughtIn(l, f);
    hide ApplyFill, Value, Notional, PositionsValue;
    OpenedTotals(l.book, f.symbol, h, prices);
  }

  lemma BuyIsSubmitted(c: Config, d: Desk, m: Market, k: nat, sig: Signal, prices: map<Symbol, real>)
    requires Quotes(m, prices) && d.ledger.book.Valid() && d.ledger.book.held.Keys <= prices.Keys
    requires sig.symbol in prices && sig.strategyName == c.terms.strategyName && sig.kind.BUY?
    requires ProcessSignal(c, d, m, k, sig).log != []
    ensures var decision := DecisionAt(c, d, sig, prices, m.clock(k + 1));
      && decision.Approved? && decision.order.side.Buy? && decision.order.symbol == sig.symbol
      && var f := FillOf(c.terms, m, k + 2, decision.order);
      && f.price == prices[sig.symbol] && ApplyFill(d.ledger, f).Filled? && sig.symbol !in d.ledger.book.held
      && ProcessSignal(c, d, m, k, sig).desk.ledger == After(d.ledger, f)
  {
    assert m.prices(k) == prices && m.prices(k + 1) == prices && m.prices(k + 2) == prices;
    hide PositionsValue;
    hide OrderValue, DailyLossHit, Lots, ApplyFill;
  }

  /** What an approved buy leaves, at unchanged prices: the position and all positions together are within their
      shares of the equity they were sized by, which is the equity now plus the commission paid. */
  lemma BoughtWithinLimits(c: Config, d: Desk, m: Market, k: nat, sig: Signal, prices: map<Symbol, real>)
    requires Quotes(m, prices) && d.ledger.book.Valid() && d.ledger.book.held.Keys <= prices.Keys
    requires sig.symbol in prices && sig.strategyName == c.terms.strategyName && sig.kind.BUY?
    requires ProcessSignal(c, d, m, k, sig).log != []
    ensures var l := ProcessSignal(c, d, m, k, sig).desk.ledger;
      var sized := Equity(l, prices) + c.terms.commission;
      && sig.symbol in l.book.held
      && Value(l.book.held[sig.symbol], prices[sig.symbol]) <= Times(sized, c.limits.maxPositionSizePct)
      && PositionsValue(l.book, prices) <= Times(sized, c.limits.maxPortfolioAllocationPct)
      && l.cash >= -c.terms.commission
  {
    BuyIsSubmitted(c, d, m, k, sig, prices);
    var a := Account(m.clock(k + 1), d.ledger.cash, PositionsValue(d.ledger.book, prices));
    var o := DecisionAt(c, d, sig, prices, m.clock(k + 1)).order;
    var f := FillOf(c.terms, m, k + 2, o);
    assert Notional(f) == Times(o.quantity, prices[sig.symbol]);
    hide EvaluateBuy, Times, Value, Notional, PositionsValue, ProcessSignal, ApplyFill;
    SizingIsMaximal(c.limits, sig, prices[sig.symbol], a, d.ledger.book, d.baseline, 1);
    BoughtTotals(d.ledger, f, prices);
  }
}
