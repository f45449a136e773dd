/** Whole backtests: they never fail, account for every unit of equity, end each day inside the exit band, trade in
    round trips, and without commissions never meet the daily loss gate. */
module BacktestTheorems {
  import opened Arithmetic
  import opened Backtests
  import opened BacktestLaws
  import opened Discipline
  import opened Domain
  import opened Ledgers
  import opened Lookahead
  import opened Risk
  import opened Safety
  import opened Tally
  import opened Trading

  lemma {:induction false} LaterHasMore(bars: Window, d: int, d': int)
    requires d <= d' && UpTo(bars, d) != []
    ensures UpTo(bars, d') != []
  {
    if bars[|bars| - 1].date > d {
      LaterHasMore(bars[..|bars| - 1], d, d');
    }
  }

  lemma QuotesStay(h: History, d: int, d': int)
    requires d <= d'
    ensures AsOf(h, d).Keys <= AsOf(h, d').Keys
  {
    forall s | s in AsOf(h, d) ensures s in AsOf(h, d') {
      LaterHasMore(h[s], d, d');
    }
  }

  lemma {:induction false} UpToOwnDate(bars: Window, i: nat)
    requires Ascending(bars) && i < |bars|
    ensures UpTo(bars, bars[i].date) == bars[..i + 1]
  {
    var n := |bars| - 1;
    if i < n {
      EarlierDates(bars, i);
      UpToOwnDate(bars[..n], i);
      assert bars[..n][..i + 1] == bars[..i + 1];
    } else {
      assert bars[..i + 1] == bars;
    }
  }

  /** What a strategy is shown on a date is never empty: a symbol's bars from its first one to the one of that date. So
      the windows of one symbol grow bar by bar, and the error for an empty window cannot occur. */
  lemma {:induction false} WindowsGrowBarByBar(plan: Plan, h: History, date: int, symbols: seq<Symbol>)
    requires Fetched(plan, h)
    ensures forall w | w in Windows(symbols, h, date) ::
              w.0 in h && exists i :: 0 <= i < |h[w.0]| && h[w.0][i].date == date && w.1 == h[w.0][..i + 1]
  {
    if symbols != [] {
      var s := symbols[|symbols| - 1];
      WindowsGrowBarByBar(plan, h, date, symbols[..|symbols| - 1]);
      if i :| 0 <= i < |BarsOf(h, s)| && BarsOf(h, s)[i].date == date {
        UpToOwnDate(h[s], i);
      }
    }
  }

  lemma {:induction false} WindowsAreQuoted(plan: Plan, h: History, date: int, symbols: seq<Symbol>)
    requires Fetched(plan, h)
    ensures WindowsQuoted(Windows(symbols, h, date), AsOf(h, date))
  {
    if symbols != [] {
      var s := symbols[|symbols| - 1];
      WindowsAreQuoted(plan, h, date, symbols[..|symbols| - 1]);
      if HasBar(BarsOf(h, s), date) {
        assert s in h;
        HasBarIsLast(h[s], date);
      }
      hide AsOf, HasBar;
    }
  }

  lemma CalendarRises(calendar: seq<int>, i: nat)
    requires Increasing(calendar) && 0 < i < |calendar|
    ensures calendar[i - 1] < calendar[i]
  {
  }

  /** Every date of every backtest is a good day. */
  lemma {:induction false} EveryDayIsGood(plan: Plan, h: History, calendar: seq<int>, n: nat)
    requires Backtestable(plan.config) && Fetched(plan, h) && IsCalendar(calendar, h) && 0 < n <= |calendar|
    ensures !RunDays(plan, h, calendar, n - 1).raised
    ensures GoodDay(plan, RunDays(plan, h, calendar, n - 1), RunDays(plan, h, calendar, n), calendar[n - 1],
                    AsOf(h, calendar[n - 1]))
    ensures |RunDays(plan, h, calendar, n).days| == n
  {
    hide AsOf, Windows, Day, InBand, AtQuote, Disciplined, WindowsQuoted, FirstOccurrences;
    var before, date := RunDays(plan, h, calendar, n - 1), calendar[n - 1];
    if n > 1 {
      EveryDayIsGood(plan, h, calendar, n - 1);
      CalendarRises(calendar, n - 1);
      QuotesStay(h, calendar[n - 2], date);
    }
    WindowsAreQuoted(plan, h, date, FirstOccurrences(plan.symbols));
    DayIsGood(plan, before, date, AsOf(h, date), Windows(FirstOccurrences(plan.symbols), h, date));
  }

  lemma {:induction false} DaysAreKept(plan: Plan, h: History, calendar: seq<int>, i: nat, n: nat)
    requires Backtestable(plan.config) && Fetched(plan, h) && IsCalendar(calendar, h) && 0 < i <= n <= |calendar|
    ensures |RunDays(plan, h, calendar, i).days| == i && |RunDays(plan, h, calendar, n).days| == n
    ensures RunDays(plan, h, calendar, n).days[i - 1] == RunDays(plan, h, calendar, i).days[i - 1]
  {
    hide RunDays;
    EveryDayIsGood(plan, h, calendar, n);
    if i < n {
      DaysAreKept(plan, h, calendar, i, n - 1);
      var before, after := RunDays(plan, h, calendar, n - 1), RunDays(plan, h, calendar, n);
      assert after.days[..n - 1][i - 1] == after.days[i - 1];
    }
  }

  lemma StartOfRun(plan: Plan, h: History, calendar: seq<int>)
    ensures RunDays(plan, h, calendar, 0) == Start(plan)
  {
  }

  /** A backtest over a calendar never raises, and records one day for each of its dates. */
  lemma BacktestNeverFails(plan: Plan, h: History, calendar: seq<int>)
    requires Backtestable(plan.config) && Fetched(plan, h) && IsCalendar(calendar, h)
    ensures !Backtest(plan, h, calendar).raised && |Backtest(plan, h, calendar).days| == |calendar|
    ensures forall i | 0 <= i < |calendar| :: Backtest(plan, h, calendar).days[i].date == calendar[i]
  {
    hide RunDays, InBand, Quoted, AsOf, Disciplined;
    if calendar == [] {
      assert Backtest(plan, h, calendar) == Start(plan) by {
        StartOfRun(plan, h, calendar);
      }
    } else {
      EveryDayIsGood(plan, h, calendar, |calendar|);
      forall i | 0 <= i < |calendar| ensures Backtest(plan, h, calendar).days[i].date == calendar[i] {
        EveryDayIsGood(plan, h, calendar, i + 1);
        DaysAreKept(plan, h, calendar, i + 1, |calendar|);
      }
    }
  }

  lemma BandIsPrices(c: Config, h: Holding, price: real)
    requires h.avgEntryPrice > 0.0
    requires !Breaches(c.limits.stopLossPct, c.limits.takeProfitPct, h, price)
    ensures c.limits.stopLossPct.Some? ==> price > Times(h.avgEntryPrice, 1.0 - c.limits.stopLossPct.value)
    ensures c.limits.takeProfitPct.Some? ==> price < Times(h.avgEntryPrice, 1.0 + c.limits.takeProfitPct.value)
  {
    StopIsAPrice(c.limits.stopLossPct, h, price);
    TargetIsAPrice(c.limits.takeProfitPct, h, price);
    hide Times, ChangePct;
  }

  /** The exit band, when it is positive: at the end of every day each open position, bought that day or long ago,
      traded that day or not, has a close that day or before, and the last one lies strictly between its entry price
      less the stop and its entry price plus the target. */
  lemma DaysEndInBand(plan: Plan, h: History, calendar: seq<int>, i: nat, closes: map<Symbol, real>)
    requires Backtestable(plan.config) && PositiveBand(plan.config)
    requires Fetched(plan, h) && IsCalendar(calendar, h) && i < |calendar| && ClosesOn(h, calendar[i], closes)
    ensures |Backtest(plan, h, calendar).days| == |calendar|
    ensures var held, limits := Backtest(plan, h, calendar).days[i].closing.book.held, plan.config.limits;
      forall s | s in held ::
        && s in closes && held[s].avgEntryPrice > 0.0
        && (limits.stopLossPct.Some? ==> Times(held[s].avgEntryPrice, 1.0 - limits.stopLossPct.value) < closes[s])
        && (limits.takeProfitPct.Some? ==> closes[s] < Times(held[s].avgEntryPrice, 1.0 + limits.takeProfitPct.value))
  {
    hide AsOf, RunDays, Breaches, Times, ClosesOn;
    EveryDayIsGood(plan, h, calendar, i + 1);
    DaysAreKept(plan, h, calendar, i + 1, |calendar|);
    ReplayQuotesCloses(h, calendar[i], closes);
    var held := Backtest(plan, h, calendar).days[i].closing.book.held;
    forall s | s in held
      ensures && s in closes && held[s].avgEntryPrice > 0.0
              && !Breaches(plan.config.limits.stopLossPct, plan.config.limits.takeProfitPct, held[s], closes[s]) {
    }
    forall s | s in held {
      BandIsPrices(plan.config, held[s], closes[s]);
    }
  }

  /** Every trade of a day is at that day's close, and every buy at a positive one. */
  lemma TradesAreAtCloses(plan: Plan, h: History, calendar: seq<int>, i: nat, closes: map<Symbol, real>)
    requires Backtestable(plan.config) && Fetched(plan, h) && IsCalendar(calendar, h)
    requires i < |calendar| && ClosesOn(h, calendar[i], closes)
    ensures |Backtest(plan, h, calendar).days| == |calendar|
    ensures forall j | 0 <= j < |Backtest(plan, h, calendar).days[i].log| ::
              var f := Backtest(plan, h, calendar).days[i].log[j].fill;
              f.symbol in closes && f.price == closes[f.symbol] && (f.side.Buy? ==> f.price > 0.0)
  {
    hide AsOf, RunDays, InBand, Quoted, Disciplined;
    EveryDayIsGood(plan, h, calendar, i + 1);
    DaysAreKept(plan, h, calendar, i + 1, |calendar|);
    ReplayQuotesCloses(h, calendar[i], closes);
  }

  function Moves(b: Book, from: map<Symbol, real>, to: map<Symbol, real>): map<Symbol, real> {
    map s | s in b.held && s in from && s in to :: Times(b.held[s].quantity, to[s] - from[s])
  }

  /** What holding a book overnight gains: each quantity times the change of its close. */
  function Overnight(b: Book, from: map<Symbol, real>, to: map<Symbol, real>): real {
    Total(b.order, Moves(b, from, to))
  }

  lemma OvernightIsTheMove(l: Ledger, from: map<Symbol, real>, to: map<Symbol, real>)
    requires l.book.Valid() && l.book.held.Keys <= from.Keys && l.book.held.Keys <= to.Keys
    ensures Equity(l, to) == Equity(l, from) + Overnight(l.book, from, to)
  {
    forall s | s in l.book.order
      ensures At(Worth(l.book, to), s) == At(Worth(l.book, from), s) + At(Moves(l.book, from, to), s) {
      TimesAdds(l.book.held[s].quantity, from[s], to[s] - from[s]);
    }
    TotalCombines(l.book.order, Worth(l.book, to), Worth(l.book, from), Moves(l.book, from, to));
  }

  function FillCount(days: seq<DayRecord>): nat {
    if days == [] then 0 else FillCount(days[..|days| - 1]) + |days[|days| - 1].log|
  }

  /** The closes of every date of a calendar. */
  ghost predicate ClosesOver(h: History, calendar: seq<int>, closes: seq<map<Symbol, real>>) {
    |closes| == |calendar| && forall i | 0 <= i < |calendar| :: ClosesOn(h, calendar[i], closes[i])
  }

  /** The gains of the nights before the last of `n` days. */
  function NightGains(plan: Plan, h: History, calendar: seq<int>, closes: seq<map<Symbol, real>>, n: nat): real
    requires n <= |calendar| == |closes|
  {
    if n < 2 then 0.0
    else
      NightGains(plan, h, calendar, closes, n - 1)
      + Overnight(RunDays(plan, h, calendar, n - 1).desk.ledger.book, closes[n - 2], closes[n - 1])
  }

  lemma ClosesAreQuotes(h: History, calendar: seq<int>, closes: seq<map<Symbol, real>>, i: nat)
    requires ClosesOver(h, calendar, closes) && i < |calendar|
    ensures closes[i] == AsOf(h, calendar[i])
  {
    hide AsOf, ClosesOn;
    ReplayQuotesCloses(h, calendar[i], closes[i]);
  }

  /** Equity telescopes: what a day opens with is what the last one closed with plus the night's move, each quantity
      times the change of its close, and what it ends with is that minus its commissions; so equity is the capital,
      plus all nights, minus all commissions. */
  lemma {:induction false} EquityTelescopes(plan: Plan, h: History, calendar: seq<int>,
                                            closes: seq<map<Symbol, real>>, n: nat)
    requires Backtestable(plan.config) && Fetched(plan, h) && IsCalendar(calendar, h) && 0 < n <= |calendar|
    requires ClosesOver(h, calendar, closes)
    ensures |RunDays(plan, h, calendar, n).days| == n
    ensures var days, commission := RunDays(plan, h, calendar, n).days, plan.config.terms.commission;
      && days[n - 1].equity == days[n - 1].opening - Times(Shares(|days[n - 1].log|), commission)
      && (n == 1 ==> days[0].opening == plan.capital)
      && (n > 1 ==> days[n - 1].opening
                    == days[n - 2].equity + Overnight(days[n - 2].closing.book, closes[n - 2], closes[n - 1]))
      && days[n - 1].equity
         == plan.capital + NightGains(plan, h, calendar, closes, n) - Times(Shares(FillCount(days)), commission)
  {
    hide AsOf, RunDays, InBand, Times, Disciplined, ClosesOver, Overnight;
    var c := plan.config.terms.commission;
    var before, after := RunDays(plan, h, calendar, n - 1), RunDays(plan, h, calendar, n);
    EveryDayIsGood(plan, h, calendar, n);
    ClosesAreQuotes(h, calendar, closes, n - 1);
    if n == 1 {
      StartOfRun(plan, h, calendar);
      assert after.days[..0] == [];
    } else {
      EveryDayIsGood(plan, h, calendar, n - 1);
      EquityTelescopes(plan, h, calendar, closes, n - 1);
      CalendarRises(calendar, n - 1);
      ClosesAreQuotes(h, calendar, closes, n - 2);
      QuotesStay(h, calendar[n - 2], calendar[n - 1]);
      OvernightIsTheMove(before.desk.ledger, AsOf(h, calendar[n - 2]), AsOf(h, calendar[n - 1]));
      assert after.days[..n - 1] == before.days && after.days[n - 2] == before.days[n - 2];
      TimesAddsLeft(Shares(FillCount(before.days)), Shares(|after.days[n - 1].log|), c);
    }
  }

  function AllTrades(days: seq<DayRecord>): seq<Entry> {
    if days == [] then [] else AllTrades(days[..|days| - 1]) + days[|days| - 1].log
  }

  /** A backtest is one disciplined log from its capital, so what holds of all such logs holds of it. */
  lemma {:induction false} BacktestIsDisciplined(plan: Plan, h: History, calendar: seq<int>, n: nat)
    requires Backtestable(plan.config) && Fetched(plan, h) && IsCalendar(calendar, h) && n <= |calendar|
    ensures Disciplined(plan.config, Start(plan).desk.ledger, AllTrades(RunDays(plan, h, calendar, n).days))
    ensures RunDays(plan, h, calendar, n).desk.ledger
         == End(Start(plan).desk.ledger, AllTrades(RunDays(plan, h, calendar, n).days))
  {
    hide RunDays, Disciplined, InBand, Quoted, AsOf;
    if n == 0 {
      StartOfRun(plan, h, calendar);
      NothingIsDisciplined(plan.config, Start(plan).desk.ledger);
    } else {
      var before, after := RunDays(plan, h, calendar, n - 1), RunDays(plan, h, calendar, n);
      BacktestIsDisciplined(plan, h, calendar, n - 1);
      EveryDayIsGood(plan, h, calendar, n);
      DisciplinedAppend(plan.config, Start(plan).desk.ledger, AllTrades(before.days), after.days[|before.days|].log);
      assert after.days[..|after.days| - 1] == before.days;
    }
  }

  /** In every backtest the fills of each symbol are BUY, SELL, BUY, ... in whole shares, each SELL closing exactly what
      the BUY before it opened, and what is held at the end is the last BUY at its own price. */
  lemma BacktestTradesInRoundTrips(plan: Plan, h: History, calendar: seq<int>, s: Symbol)
    requires Backtestable(plan.config) && Fetched(plan, h) && IsCalendar(calendar, h)
    ensures var trades := FillsOf(AllTrades(Backtest(plan, h, calendar).days), s);
      RoundTrips(trades) && HoldsLastBuy(Backtest(plan, h, calendar).desk.ledger.book, s, trades)
  {
    BacktestIsDisciplined(plan, h, calendar, |calendar|);
    TradesAreRoundTrips(plan.config, Start(plan).desk.ledger, AllTrades(Backtest(plan, h, calendar).days), s);
  }

  /** The position limit is kept at the end of every day of every backtest. */
  lemma BacktestKeepsLimit(plan: Plan, h: History, calendar: seq<int>, n: nat)
    requires Backtestable(plan.config) && Fetched(plan, h) && IsCalendar(calendar, h) && n <= |calendar|
    ensures var open := |RunDays(plan, h, calendar, n).desk.ledger.book.order|;
      open <= plan.config.limits.maxOpenPositions || open == 0
  {
    hide RunDays, Disciplined;
    BacktestIsDisciplined(plan, h, calendar, n);
    DisciplineKeepsLimit(plan.config, Start(plan).desk.ledger, AllTrades(RunDays(plan, h, calendar, n).days));
  }

  function WithoutGate(c: Config): Config {
    c.(limits := c.limits.(dailyLossLimitPct := None))
  }

  lemma GateIsClosed(limit: Option<real>, equity: real)
    requires limit.Some? ==> limit.value > 0.0
    ensures !DailyLossHit(limit, equity, Some(equity))
  {
    if equity != 0.0 {
      QuotientIs(0.0, equity, 0.0);
    }
  }

  lemma SignalIgnoresGate(c: Config, d: Desk, m: Market, k: nat, sig: Signal, prices: map<Symbol, real>)
    requires Quotes(m, prices) && Quoted(d.ledger, prices) && d.baseline == Some(Equity(d.ledger, prices))
    requires c.limits.dailyLossLimitPct.Some? ==> c.limits.dailyLossLimitPct.value > 0.0
    ensures ProcessSignal(c, d, m, k, sig) == ProcessSignal(WithoutGate(c), d, m, k, sig)
  {
    AccountAtQuote(d.ledger, m, k + 1, prices);
    GateIsClosed(c.limits.dailyLossLimitPct, Equity(d.ledger, prices));
    hide DailyLossHit, Submit, Lots, Times, Equity, PositionsValue;
    assert !DailyLossHit(None, Equity(d.ledger, prices), d.baseline) by {
      NoGate(Equity(d.ledger, prices), d.baseline);
    }
  }

  lemma NoGate(equity: real, baseline: Option<real>)
    ensures !DailyLossHit(None, equity, baseline)
  {
  }

  lemma {:induction false} SignalsIgnoreGate(plan: Plan, d: Desk, m: Market, k: nat, windows: seq<(Symbol, Window)>,
                                             prices: map<Symbol, real>)
    requires Quotes(m, prices) && Quoted(d.ledger, prices) && d.baseline == Some(Equity(d.ledger, prices))
    requires WindowsQuoted(windows, prices) && !plan.config.terms.persist && plan.config.terms.commission == 0.0
    requires plan.config.limits.dailyLossLimitPct.Some? ==> plan.config.limits.dailyLossLimitPct.value > 0.0
    ensures ProcessAll(plan, d, m, k, windows)
         == ProcessAll(plan.(config := WithoutGate(plan.config)), d, m, k, windows)
  {
    if windows != [] {
      var init := windows[..|windows| - 1];
      SignalsIgnoreGate(plan, d, m, k, init, prices);
      SignalsAreSound(plan, d, m, k, init, prices);
      var before := ProcessAll(plan, d, m, k, init);
      SoundStaysQuoted(plan.config, d, prices, before);
      assert Times(Shares(|before.log|), 0.0) == 0.0;
      hide ProcessSignal, Quoted, Equity, Times;
      SignalIgnoresGate(plan.config, before.desk, m, before.moment, SignalFor(plan, windows[|windows| - 1]), prices);
    }
  }

  lemma DayIgnoresGate(plan: Plan, p: Progress, date: int, prices: map<Symbol, real>, windows: seq<(Symbol, Window)>)
    requires Backtestable(plan.config) && Quoted(p.desk.ledger, prices) && WindowsQuoted(windows, prices)
    requires plan.config.terms.commission == 0.0
    requires plan.config.limits.dailyLossLimitPct.Some? ==> plan.config.limits.dailyLossLimitPct.value > 0.0
    ensures Day(plan, p, date, prices, windows)
         == Day(plan.(config := WithoutGate(plan.config)), p, date, prices, windows)
  {
    var c, m := plan.config, DayMarket(plan, prices);
    assert Quotes(m, prices);
    AccountAtQuote(p.desk.ledger, m, p.moment, prices);
    var start := StartNewTradingDay(p.desk, m, p.moment);
    assert start.desk.ledger == p.desk.ledger && start.desk.baseline == Some(Equity(p.desk.ledger, prices));
    var exits := RunExitChecks(c, start.desk, m, start.moment);
    assert exits == RunExitChecks(WithoutGate(c), start.desk, m, start.moment);
    ExitChecksAreSound(c, start.desk, m, start.moment, prices);
    SoundStaysQuoted(c, start.desk, prices, exits);
    assert Times(Shares(|exits.log|), 0.0) == 0.0;
    hide RunExitChecks, ProcessAll, Quoted, Equity, InBand, Times;
    SignalsIgnoreGate(plan, exits.desk, m, exits.moment, windows, prices);
  }

  /** Without commissions the daily loss gate never fires in a backtest: the run is the one without the gate. */
  lemma {:induction false} GateNeverFires(plan: Plan, h: History, calendar: seq<int>, n: nat)
    requires Backtestable(plan.config) && Fetched(plan, h) && IsCalendar(calendar, h) && n <= |calendar|
    requires plan.config.terms.commission == 0.0
    requires plan.config.limits.dailyLossLimitPct.Some? ==> plan.config.limits.dailyLossLimitPct.value > 0.0
    ensures RunDays(plan, h, calendar, n) == RunDays(plan.(config := WithoutGate(plan.config)), h, calendar, n)
  {
    hide AsOf, Windows, Day, InBand, AtQuote, Disciplined, FirstOccurrences, Equity, WindowsQuoted;
    if n > 0 {
      GateNeverFires(plan, h, calendar, n - 1);
      var before, date := RunDays(plan, h, calendar, n - 1), calendar[n - 1];
      EveryDayIsGood(plan, h, calendar, n);
      if n > 1 {
        EveryDayIsGood(plan, h, calendar, n - 1);
        CalendarRises(calendar, n - 1);
        QuotesStay(h, calendar[n - 2], date);
      }
      WindowsAreQuoted(plan, h, date, FirstOccurrences(plan.symbols));
      DayIgnoresGate(plan, before, date, AsOf(h, date), Windows(FirstOccurrences(plan.symbols), h, date));
    }
  }
}
