/** Identifiers and wall-clock readings are written down but never read: a backtest with all of them erased is the
    backtest, erased. With this the no-lookahead property holds between runs at different times. */
module Timeless {
  import opened Arithmetic
  import opened Backtests
  import opened Domain
  import opened Ledgers
  import opened Lookahead
  import opened Risk
  import opened Trading

  function TimelessHolding(h: Holding): Holding {
    h.(openedAt := 0)
  }

  function TimelessBook(b: Book): Book {
    Book(b.order, map s | s in b.held :: TimelessHolding(b.held[s]))
  }

  function TimelessLedger(l: Ledger): Ledger {
    l.(book := TimelessBook(l.book))
  }

  function TimelessDesk(d: Desk): Desk {
    d.(ledger := TimelessLedger(d.ledger))
  }

  function TimelessFill(f: Fill): Fill {
    f.(id := 0, timestamp := 0)
  }

  function TimelessAccount(a: Option<Account>): Option<Account> {
    if a.Some? then Some(a.value.(timestamp := 0)) else None
  }

  function TimelessEntry(e: Entry): Entry {
    Entry(TimelessFill(e.fill), e.tag, TimelessAccount(e.snapshot))
  }

  function TimelessLog(log: seq<Entry>): seq<Entry> {
    seq(|log|, i requires 0 <= i < |log| => TimelessEntry(log[i]))
  }

  function TimelessStep(s: Step): Step {
    Step(TimelessDesk(s.desk), TimelessLog(s.log), s.moment, s.raised)
  }

  function TimelessDay(r: DayRecord): DayRecord {
    r.(log := TimelessLog(r.log), closing := TimelessLedger(r.closing))
  }

  function TimelessDays(days: seq<DayRecord>): seq<DayRecord> {
    seq(|days|, i requires 0 <= i < |days| => TimelessDay(days[i]))
  }

  function TimelessProgress(p: Progress): Progress {
    Progress(TimelessDesk(p.desk), TimelessDays(p.days), p.moment, p.raised)
  }

  /** A clock that stands still, and a supply of one identifier. */
  function Still(): nat -> int {
    (k: nat) => 0
  }

  function TimelessMarket(m: Market): Market {
    Market(m.prices, Still(), Still())
  }

  function TimelessPlan(plan: Plan): Plan {
    plan.(clock := Still(), ids := Still())
  }

  lemma ValueIsTimeless(l: Ledger, prices: map<Symbol, real>)
    ensures PositionsValue(TimelessBook(l.book), prices) == PositionsValue(l.book, prices)
    ensures Equity(TimelessLedger(l), prices) == Equity(l, prices)
  {
    forall s | s in l.book.held && s in prices
      ensures Worth(TimelessBook(l.book), prices)[s] == Worth(l.book, prices)[s] {
      assert TimelessBook(l.book).held[s].quantity == l.book.held[s].quantity;
    }
    assert Worth(TimelessBook(l.book), prices) == Worth(l.book, prices);
  }

  lemma AccountIsTimeless(l: Ledger, m: Market, k: nat)
    ensures GetAccount(TimelessLedger(l), TimelessMarket(m), k) == TimelessAccount(GetAccount(l, m, k))
  {
    ValueIsTimeless(l, m.prices(k));
    hide PositionsValue;
    assert TimelessBook(l.book).held.Keys == l.book.held.Keys;
  }

  lemma BooksAreTimeless(b: Book, s: Symbol, h: Holding)
    ensures TimelessBook(Opened(b, s, h)) == Opened(TimelessBook(b), s, TimelessHolding(h))
    ensures TimelessBook(Resized(b, s, h)) == Resized(TimelessBook(b), s, TimelessHolding(h))
    ensures TimelessBook(Closed(b, s)) == Closed(TimelessBook(b), s)
  {
    hide TimelessHolding;
    assert TimelessBook(Opened(b, s, h)).held == TimelessBook(b).held[s := TimelessHolding(h)];
    assert TimelessBook(Closed(b, s)).held == TimelessBook(b).held - {s};
  }

  lemma AmountsAreTimeless(h: Holding, f: Fill)
    ensures Notional(TimelessFill(f)) == Notional(f)
    ensures Profit(TimelessHolding(h), TimelessFill(f)) == Profit(h, f)
    ensures Reduced(TimelessHolding(h), f.quantity) == TimelessHolding(Reduced(h, f.quantity))
    ensures h.quantity + f.quantity != 0.0 ==>
              Averaged(TimelessHolding(h), f.quantity, f.price) == TimelessHolding(Averaged(h, f.quantity, f.price))
  {
  }

  lemma MoveIsTimeless(l: Ledger, f: Fill)
    ensures After(TimelessLedger(l), TimelessFill(f)) == TimelessLedger(After(l, f))
    ensures ApplyFill(TimelessLedger(l), TimelessFill(f)).Filled? <==> ApplyFill(l, f).Filled?
  {
    var b, s := l.book, f.symbol;
    var h := if s in b.held then b.held[s] else Holding(f.quantity, f.price, f.timestamp);
    AmountsAreTimeless(h, f);
    assert s in b.held ==> TimelessBook(b).held[s] == TimelessHolding(h);
    assert s in b.held <==> s in TimelessBook(b).held;
    hide Notional, Profit, Averaged, Opened, Resized, Closed, TimelessBook;
    BooksAreTimeless(b, s, h);
    BooksAreTimeless(b, s, Reduced(h, f.quantity));
    if h.quantity + f.quantity != 0.0 {
      BooksAreTimeless(b, s, Averaged(h, f.quantity, f.price));
    }
  }

  lemma SubmitIsTimeless(t: Terms, d: Desk, m: Market, k: nat, o: Order)
    ensures Submit(t, TimelessDesk(d), TimelessMarket(m), k, o) == TimelessStep(Submit(t, d, m, k, o))
  {
    if o.symbol in m.prices(k) {
      var f := FillOf(t, m, k, o);
      assert FillOf(t, TimelessMarket(m), k, o) == TimelessFill(f);
      MoveIsTimeless(d.ledger, f);
      AccountIsTimeless(After(d.ledger, f), m, k + 1);
      hide ApplyFill, GetAccount, TimelessLedger;
    }
  }

  lemma LogsAppend(a: seq<Entry>, b: seq<Entry>)
    ensures TimelessLog(a + b) == TimelessLog(a) + TimelessLog(b)
  {
  }

  lemma {:induction false} ExitsAreTimeless(t: Terms, d: Desk, m: Market, k: nat, orders: seq<Order>)
    ensures SubmitAll(t, TimelessDesk(d), TimelessMarket(m), k, orders) == TimelessStep(SubmitAll(t, d, m, k, orders))
  {
    hide Submit, TimelessDesk, TimelessMarket;
    if orders != [] {
      var init, o := orders[..|orders| - 1], orders[|orders| - 1];
      var before := SubmitAll(t, d, m, k, init);
      ExitsAreTimeless(t, d, m, k, init);
      SubmitIsTimeless(t, before.desk, m, before.moment, o);
      LogsAppend(before.log, Submit(t, before.desk, m, before.moment, o).log);
    }
  }

  lemma {:induction false} OrdersAreTimeless(stop: Option<real>, target: Option<real>, b: Book,
                                             prices: map<Symbol, real>, n: nat)
    requires n <= |b.order|
    ensures ExitsAmong(stop, target, TimelessBook(b), prices, n) == ExitsAmong(stop, target, b, prices, n)
  {
    if n > 0 {
      OrdersAreTimeless(stop, target, b, prices, n - 1);
    }
  }

  lemma ExitChecksAreTimeless(c: Config, d: Desk, m: Market, k: nat)
    ensures RunExitChecks(c, TimelessDesk(d), TimelessMarket(m), k) == TimelessStep(RunExitChecks(c, d, m, k))
  {
    var b := d.ledger.book;
    assert TimelessBook(b).held.Keys == b.held.Keys;
    OrdersAreTimeless(c.limits.stopLossPct, c.limits.takeProfitPct, b, m.prices(k), |b.order|);
    ExitsAreTimeless(c.terms, d, m, k + 1, CheckExits(c.limits.stopLossPct, c.limits.takeProfitPct, b, m.prices(k)));
    hide SubmitAll, ExitsAmong;
  }

  lemma DecisionIsTimeless(limits: Limits, sig: Signal, price: real, a: Account, b: Book, baseline: Option<real>)
    ensures EvaluateSignal(limits, sig, price, a.(timestamp := 0), TimelessBook(b), baseline)
         == EvaluateSignal(limits, sig, price, a, b, baseline)
  {
    hide DailyLossHit, Lots, Min;
  }

  lemma SignalIsTimeless(c: Config, d: Desk, m: Market, k: nat, sig: Signal)
    ensures ProcessSignal(c, TimelessDesk(d), TimelessMarket(m), k, sig) == TimelessStep(ProcessSignal(c, d, m, k, sig))
  {
    AccountIsTimeless(d.ledger, m, k + 1);
    hide GetAccount, EvaluateSignal, Submit;
    if sig.symbol in m.prices(k) && GetAccount(d.ledger, m, k + 1).Some? {
      var a := GetAccount(d.ledger, m, k + 1).value;
      var decision := EvaluateSignal(c.limits, sig, m.prices(k)[sig.symbol], a, d.ledger.book, d.baseline);
      DecisionIsTimeless(c.limits, sig, m.prices(k)[sig.symbol], a, d.ledger.book, d.baseline);
      if decision.Approved? {
        SubmitIsTimeless(c.terms, d, m, k + 2, decision.order);
      }
    }
  }

  lemma {:induction false} SignalsAreTimeless(plan: Plan, d: Desk, m: Market, k: nat, windows: seq<(Symbol, Window)>)
    ensures ProcessAll(TimelessPlan(plan), TimelessDesk(d), TimelessMarket(m), k, windows)
         == TimelessStep(ProcessAll(plan, d, m, k, windows))
  {
    hide ProcessSignal, TimelessDesk, TimelessMarket;
    if windows != [] {
      var init, w := windows[..|windows| - 1], windows[|windows| - 1];
      var before := ProcessAll(plan, d, m, k, init);
      SignalsAreTimeless(plan, d, m, k, init);
      SignalIsTimeless(plan.config, before.desk, m, before.moment, SignalFor(plan, w));
      LogsAppend(before.log, ProcessSignal(plan.config, before.desk, m, before.moment, SignalFor(plan, w)).log);
    }
  }

  lemma MorningIsTimeless(d: Desk, m: Market, k: nat)
    ensures StartNewTradingDay(TimelessDesk(d), TimelessMarket(m), k) == TimelessStep(StartNewTradingDay(d, m, k))
  {
    AccountIsTimeless(d.ledger, m, k);
    hide GetAccount, TimelessMarket;
  }

  lemma DaysAppend(days: seq<DayRecord>, r: DayRecord)
    ensures TimelessDays(days + [r]) == TimelessDays(days) + [TimelessDay(r)]
  {
    hide TimelessDay;
  }

  lemma DayIsTimeless(plan: Plan, p: Progress, date: int, prices: map<Symbol, real>, windows: seq<(Symbol, Window)>)
    ensures Day(TimelessPlan(plan), TimelessProgress(p), date, prices, windows)
         == TimelessProgress(Day(plan, p, date, prices, windows))
  {
    var c, m := plan.config, DayMarket(plan, prices);
    assert DayMarket(TimelessPlan(plan), prices) == TimelessMarket(m);
    hide GetAccount, Equity, StartNewTradingDay, RunExitChecks, ProcessAll, TimelessLedger, TimelessMarket, DayMarket,
      TimelessLog, TimelessDays;
    ValueIsTimeless(p.desk.ledger, prices);
    MorningIsTimeless(p.desk, m, p.moment);
    var start := StartNewTradingDay(p.desk, m, p.moment);
    ExitChecksAreTimeless(c, start.desk, m, start.moment);
    var exits := RunExitChecks(c, start.desk, m, start.moment);
    SignalsAreTimeless(plan, exits.desk, m, exits.moment, windows);
    var signals := ProcessAll(plan, exits.desk, m, exits.moment, windows);
    AccountIsTimeless(signals.desk.ledger, m, signals.moment);
    LogsAppend(exits.log, signals.log);
    if GetAccount(signals.desk.ledger, m, signals.moment).Some? {
      var equity := GetAccount(signals.desk.ledger, m, signals.moment).value.Equity();
      DaysAppend(p.days, DayRecord(date, Equity(p.desk.ledger, prices), exits.log + signals.log, equity,
                                   signals.desk.ledger));
    }
  }

  /** Erasing before the run or after it makes no difference. */
  lemma {:induction false} RunIsTimeless(plan: Plan, h: History, calendar: seq<int>, n: nat)
    requires n <= |calendar|
    ensures RunDays(TimelessPlan(plan), h, calendar, n) == TimelessProgress(RunDays(plan, h, calendar, n))
  {
    hide Day, AsOf, Windows, TimelessProgress;
    if n == 0 {
      StartIsTimeless(plan);
    } else {
      var before, date := RunDays(plan, h, calendar, n - 1), calendar[n - 1];
      RunIsTimeless(plan, h, calendar, n - 1);
      RaisedIsTimeless(before);
      DayIsTimeless(plan, before, date, AsOf(h, date), Windows(FirstOccurrences(plan.symbols), h, date));
    }
  }

  lemma StartIsTimeless(plan: Plan)
    ensures Start(TimelessPlan(plan)) == TimelessProgress(Start(plan))
  {
    assert TimelessBook(EMPTY_BOOK) == EMPTY_BOOK;
  }

  lemma RaisedIsTimeless(p: Progress)
    ensures TimelessProgress(p).raised == p.raised
  {
  }

  lemma {:induction false} EarlyDaysAreTimeless(days: seq<DayRecord>, d: int)
    ensures DaysUpTo(TimelessDays(days), d) == TimelessDays(DaysUpTo(days, d))
  {
    hide TimelessDay;
    if days != [] {
      var init := days[..|days| - 1];
      EarlyDaysAreTimeless(init, d);
      assert TimelessDays(days)[..|days| - 1] == TimelessDays(init);
      DateIsTimeless(days[|days| - 1]);
    }
  }

  lemma DateIsTimeless(r: DayRecord)
    ensures TimelessDay(r).date == r.date
  {
  }

  /** No lookahead, whenever the two backtests are run: with different clocks and identifiers, histories that agree on
      every bar up to a date give the same trades, up to identifier and wall-clock time, and the same equity on every
      day up to it. */
  lemma NothingSeesTheFutureOrTheClock(plan: Plan, later: Plan, a: History, b: History, ca: seq<int>, cb: seq<int>,
                                       d: int)
    requires later == plan.(clock := later.clock, ids := later.ids)
    requires Fetched(plan, a) && Fetched(plan, b) && AgreeUpTo(a, b, d)
    requires IsCalendar(ca, a) && IsCalendar(cb, b)
    ensures TimelessDays(DaysUpTo(Backtest(plan, a, ca).days, d))
         == TimelessDays(DaysUpTo(Backtest(later, b, cb).days, d))
  {
    hide RunDays, DaysUpTo, TimelessDays;
    var still := TimelessPlan(plan);
    assert TimelessPlan(later) == still;
    RunIsTimeless(plan, a, ca, |ca|);
    RunIsTimeless(later, b, cb, |cb|);
    EarlyDaysAreTimeless(Backtest(plan, a, ca).days, d);
    EarlyDaysAreTimeless(Backtest(later, b, cb).days, d);
    NothingSeesTheFuture(still, a, b, ca, cb, d);
  }
}
