/** The backtester as the source runs it: the live broker, risk manager and engine over a replay provider, one date of
    the calendar after another. */
module Backtesters {
  import opened Backtests
  import opened BacktestLaws
  import opened BacktestTheorems
  import opened Brokers
  import opened Discipline
  import opened Domain
  import opened Engines
  import opened Ledgers
  import opened Portfolios
  import Risk
  import opened RiskManagers
  import T = Trading
  import opened Trading

  /** `NoData` is the error for an empty calendar, `Failed` any exception of the run. */
  datatype Report = NoData | Failed
                  | Finished(equityCurve: seq<(int, real)>, trades: seq<Fill>, finalPositions: seq<Position>)

  function CurveOf(days: seq<DayRecord>): seq<(int, real)> {
    seq(|days|, i requires 0 <= i < |days| => (days[i].date, days[i].equity))
  }

  /** The symbols of a dictionary that skips those without bars. */
  function WithBars(symbols: seq<Symbol>, h: History): seq<Symbol> {
    if symbols == [] then []
    else
      WithBars(symbols[..|symbols| - 1], h)
      + (if symbols[|symbols| - 1] in h then [symbols[|symbols| - 1]] else [])
  }

  lemma {:induction false} SkippingChangesNothing(symbols: seq<Symbol>, h: History, date: int)
    ensures Windows(WithBars(symbols, h), h, date) == Windows(symbols, h, date)
  {
    if symbols != [] {
      var init, s := symbols[..|symbols| - 1], symbols[|symbols| - 1];
      SkippingChangesNothing(init, h, date);
      if s in h {
        assert WithBars(symbols, h)[..|WithBars(init, h)|] == WithBars(init, h);
      } else {
        assert WithBars(symbols, h) == WithBars(init, h);
      }
    }
  }

  /** Inserts a date into a calendar unless it is there. */
  method InsertDate(calendar: seq<int>, date: int) returns (grown: seq<int>)
    requires Increasing(calendar)
    ensures Increasing(grown) && forall d :: d in grown <==> d in calendar || d == date
  {
    var i := |calendar|;
    while i > 0 && calendar[i - 1] > date
      invariant 0 <= i <= |calendar|
      invariant i < |calendar| ==> calendar[i] > date
    {
      i := i - 1;
    }
    if i > 0 && calendar[i - 1] == date {
      return calendar;
    }
    InsertedDate(calendar, i, date);
    return calendar[..i] + [date] + calendar[i..];
  }

  lemma InsertedDate(calendar: seq<int>, i: nat, date: int)
    requires Increasing(calendar) && i <= |calendar|
    requires (i > 0 ==> calendar[i - 1] < date) && (i < |calendar| ==> calendar[i] > date)
    ensures var grown := calendar[..i] + [date] + calendar[i..];
      Increasing(grown) && forall d :: d in grown <==> d in calendar || d == date
  {
    InsertedInOrder(calendar, i, date);
    hide Increasing;
    assert calendar == calendar[..i] + calendar[i..];
  }

  lemma InsertedInOrder(calendar: seq<int>, i: nat, date: int)
    requires Increasing(calendar) && i <= |calendar|
    requires (i > 0 ==> calendar[i - 1] < date) && (i < |calendar| ==> calendar[i] > date)
    ensures Increasing(calendar[..i] + [date] + calendar[i..])
  {
    var grown := calendar[..i] + [date] + calendar[i..];
    forall k | 0 < k < |grown| ensures grown[k - 1] < grown[k] {
      if k < i {
        assert grown[k - 1] == calendar[k - 1] && grown[k] == calendar[k];
      } else if k > i + 1 {
        assert grown[k - 1] == calendar[k - 2] && grown[k] == calendar[k - 1];
      }
    }
  }

  /** The sorted union of the dates of all bars. */
  method UnionCalendar(order: seq<Symbol>, h: History) returns (calendar: seq<int>)
    requires forall s :: s in order <==> s in h
    ensures IsCalendar(calendar, h)
    ensures forall d :: d in calendar <==> exists s, j :: s in h && 0 <= j < |h[s]| && h[s][j].date == d
  {
    calendar := [];
    for i := 0 to |order|
      invariant Increasing(calendar)
      invariant forall d :: d in calendar <==> exists j :: 0 <= j < i && HasBar(h[order[j]], d)
    {
      calendar := AddDates(calendar, h[order[i]]);
    }
    forall d ensures d in calendar <==> Trades(h, d) {
      if d in calendar {
        var j :| 0 <= j < |order| && HasBar(h[order[j]], d);
        assert order[j] in h;
      }
      if s :| s in h && HasBar(h[s], d) {
        var j :| 0 <= j < |order| && order[j] == s;
      }
    }
  }

  method AddDates(calendar: seq<int>, bars: Window) returns (grown: seq<int>)
    requires Increasing(calendar)
    ensures Increasing(grown) && forall d :: d in grown <==> d in calendar || HasBar(bars, d)
  {
    grown := calendar;
    for i := 0 to |bars|
      invariant Increasing(grown)
      invariant forall d :: d in grown <==> d in calendar || exists j :: 0 <= j < i && bars[j].date == d
    {
      grown := InsertDate(grown, bars[i].date);
    }
  }

  /** Fetches the bars of each symbol once per key, leaving out symbols without any. */
  method FetchHistory(symbols: seq<Symbol>, fetch: Symbol -> Window) returns (order: seq<Symbol>, h: History)
    ensures forall s :: s in h <==> s in symbols && fetch(s) != []
    ensures forall s | s in h :: h[s] == fetch(s)
    ensures order == WithBars(FirstOccurrences(symbols), h)
    ensures forall s :: s in order <==> s in h
  {
    h := map[];
    for i := 0 to |symbols|
      invariant forall s :: s in h <==> s in symbols[..i] && fetch(s) != []
      invariant forall s | s in h :: h[s] == fetch(s)
    {
      assert symbols[..i + 1] == symbols[..i] + [symbols[i]];
      if fetch(symbols[i]) != [] {
        h := h[symbols[i] := fetch(symbols[i])];
      }
    }
    assert symbols[..|symbols|] == symbols;
    order := WithBars(FirstOccurrences(symbols), h);
    OccurrenceMembers(symbols);
    WithBarsMembers(FirstOccurrences(symbols), h);
  }

  lemma {:induction false} OccurrenceMembers(symbols: seq<Symbol>)
    ensures forall s :: s in FirstOccurrences(symbols) <==> s in symbols
  {
    if symbols != [] {
      OccurrenceMembers(symbols[..|symbols| - 1]);
      assert symbols == symbols[..|symbols| - 1] + [symbols[|symbols| - 1]];
    }
  }

  lemma {:induction false} WithBarsMembers(symbols: seq<Symbol>, h: History)
    ensures forall s :: s in WithBars(symbols, h) <==> s in symbols && s in h
  {
    if symbols != [] {
      WithBarsMembers(symbols[..|symbols| - 1], h);
      assert symbols == symbols[..|symbols| - 1] + [symbols[|symbols| - 1]];
    }
  }

  /** An engine set up for a plan over a history, standing on a date. */
  ghost predicate Ready(plan: Plan, h: History, date: int, engine: ExecutionEngine)
    reads engine, engine.broker.portfolio, engine.repository, engine.provider
  {
    && engine.Valid() && engine.repository == null && engine.Config() == plan.config
    && engine.provider.source == Replay(h, plan.clock, plan.ids) && engine.provider.currentDate == Some(date)
  }

  /** The day's signals: each symbol with a bar on the date, with its bars up to then. */
  method ProcessSignals(plan: Plan, h: History, date: int, order: seq<Symbol>, engine: ExecutionEngine)
    returns (fills: seq<Fill>, raised: bool)
    requires Ready(plan, h, date, engine)
    modifies engine, engine.broker.portfolio, engine.broker.portfolio.positions.Values, engine.provider`moment
    ensures forall p | p in engine.broker.portfolio.positions.Values ::
              p in old(engine.broker.portfolio.positions.Values) || fresh(p)
    ensures Ready(plan, h, date, engine)
    ensures var step := ProcessAll(plan, old(engine.View()), DayMarket(plan, AsOf(h, date)),
                                   old(engine.provider.moment), Windows(order, h, date));
      && engine.View() == step.desk && engine.provider.moment == step.moment && raised == step.raised
      && (!raised ==> fills == Fills(step.log))
  {
    hide T.ProcessSignal, AsOf, HasBar, UpTo;
    ghost var d, m, k := engine.View(), DayMarket(plan, AsOf(h, date)), engine.provider.moment;
    fills, raised := [], false;
    for i := 0 to |order|
      invariant Ready(plan, h, date, engine)
      invariant forall p | p in engine.broker.portfolio.positions.Values ::
        p in old(engine.broker.portfolio.positions.Values) || fresh(p)
      invariant var step := ProcessAll(plan, d, m, k, Windows(order[..i], h, date));
        && !step.raised && engine.View() == step.desk && engine.provider.moment == step.moment
        && fills == Fills(step.log)
    {
      var s := order[i];
      WindowsSnoc(order, h, date, i);
      if HasBar(BarsOf(h, s), date) {
        var window := UpTo(BarsOf(h, s), date);
        ProcessNext(plan, d, m, k, Windows(order[..i], h, date), (s, window));
        var fill, failed := engine.ProcessSignal(Signal(s, plan.strategy(s, window), engine.strategyName));
        if failed {
          RaisedEnds(plan, d, m, k, order, h, date, i + 1);
          raised := true;
          return;
        }
        if fill.Some? {
          fills := fills + [fill.value];
        }
      }
    }
    assert order[..|order|] == order;
  }

  lemma WindowsSnoc(order: seq<Symbol>, h: History, date: int, i: nat)
    requires i < |order|
    ensures HasBar(BarsOf(h, order[i]), date) ==>
              Windows(order[..i + 1], h, date)
              == Windows(order[..i], h, date) + [(order[i], UpTo(BarsOf(h, order[i]), date))]
    ensures !HasBar(BarsOf(h, order[i]), date) ==> Windows(order[..i + 1], h, date) == Windows(order[..i], h, date)
  {
    assert order[..i + 1][..i] == order[..i];
  }

  lemma ProcessNext(plan: Plan, d: Desk, m: Market, k: nat, windows: seq<(Symbol, Window)>, w: (Symbol, Window))
    requires !ProcessAll(plan, d, m, k, windows).raised
    ensures var before := ProcessAll(plan, d, m, k, windows);
      var last := T.ProcessSignal(plan.config, before.desk, m, before.moment, SignalFor(plan, w));
      && ProcessAll(plan, d, m, k, windows + [w]) == last.(log := before.log + last.log)
      && |last.log| <= 1
      && Fills(before.log + last.log) == Fills(before.log) + (if last.log == [] then [] else [last.log[0].fill])
  {
    assert (windows + [w])[..|windows|] == windows;
    var before := ProcessAll(plan, d, m, k, windows);
    SignalFillsOnce(plan.config, before.desk, m, before.moment, SignalFor(plan, w));
    hide T.ProcessSignal;
  }

  lemma SignalFillsOnce(c: Config, d: Desk, m: Market, k: nat, sig: Signal)
    ensures |T.ProcessSignal(c, d, m, k, sig).log| <= 1
  {
    hide Risk.EvaluateSignal, ApplyFill, GetAccount;
  }

  lemma {:induction false} RaisedEnds(plan: Plan, d: Desk, m: Market, k: nat, order: seq<Symbol>, h: History, date: int,
                                      n: nat)
    requires n <= |order| && ProcessAll(plan, d, m, k, Windows(order[..n], h, date)).raised
    ensures ProcessAll(plan, d, m, k, Windows(order, h, date))
         == ProcessAll(plan, d, m, k, Windows(order[..n], h, date))
    decreases |order| - n
  {
    hide T.ProcessSignal;
    if n < |order| {
      WindowsSnoc(order, h, date, n);
      var ws := Windows(order[..n], h, date);
      if HasBar(BarsOf(h, order[n]), date) {
        assert (ws + [(order[n], UpTo(BarsOf(h, order[n]), date))])[..|ws|] == ws;
      }
      RaisedEnds(plan, d, m, k, order, h, date, n + 1);
    } else {
      assert order[..n] == order;
    }
  }

  /** One date of the calendar. */
  method RunDay(plan: Plan, h: History, date: int, order: seq<Symbol>, engine: ExecutionEngine, ghost p: Progress)
    returns (fills: seq<Fill>, equity: real, raised: bool)
    requires engine.Valid() && engine.repository == null && engine.Config() == plan.config
    requires engine.provider.source == Replay(h, plan.clock, plan.ids)
    requires engine.View() == p.desk && engine.provider.moment == p.moment
    modifies engine, engine.broker.portfolio, engine.broker.portfolio.positions.Values, engine.provider
    ensures forall q | q in engine.broker.portfolio.positions.Values ::
              q in old(engine.broker.portfolio.positions.Values) || fresh(q)
    ensures Ready(plan, h, date, engine)
    ensures var p' := Day(plan, p, date, AsOf(h, date), Windows(order, h, date));
      && engine.View() == p'.desk && engine.provider.moment == p'.moment && raised == p'.raised
      && (!raised ==> |p'.days| == |p.days| + 1 && p'.days[..|p.days|] == p.days
                      && Fills(p'.days[|p.days|].log) == fills && p'.days[|p.days|].equity == equity)
  {
    hide T.RunExitChecks, T.StartNewTradingDay, ProcessAll, Windows, AsOf, GetAccount, Equity, Held, Fills;
    fills, equity := [], 0.0;
    engine.provider.AdvanceTo(date);
    raised := engine.StartNewTradingDay();
    if raised {
      return;
    }
    var exits, signals;
    exits, raised := engine.RunExitChecks();
    if raised {
      return;
    }
    signals, raised := ProcessSignals(plan, h, date, order, engine);
    if raised {
      return;
    }
    var account := engine.broker.GetAccount();
    if account.None? {
      raised := true;
      return;
    }
    fills, equity := exits + signals, account.value.Equity();
    ghost var days := Day(plan, p, date, AsOf(h, date), Windows(order, h, date)).days;
    assert Fills(days[|p.days|].log) == exits + signals by {
      ghost var m, k := DayMarket(plan, AsOf(h, date)), old(engine.provider.moment);
      ghost var start := T.StartNewTradingDay(p.desk, m, k);
      ghost var checks := T.RunExitChecks(plan.config, start.desk, m, start.moment);
      FillsAppend(checks.log, ProcessAll(plan, checks.desk, m, checks.moment, Windows(order, h, date)).log);
    }
  }

  class Backtester {
    const plan: Plan
    const fetch: Symbol -> Window

    constructor (plan: Plan, fetch: Symbol -> Window)
      ensures this.plan == plan && this.fetch == fetch
    {
      this.plan, this.fetch := plan, fetch;
    }

    /** The whole backtest. With ascending bars it never fails, and its report shows the run of `Backtests.Backtest`
        over the sorted union of the dates: one equity point a day, after the day's trading, and all trades in order. */
    method Run() returns (report: Report, ghost h: History, ghost calendar: seq<int>)
      requires !plan.config.terms.persist && forall s :: Ascending(fetch(s))
      ensures forall s :: s in h <==> s in plan.symbols && fetch(s) != []
      ensures forall s | s in h :: h[s] == fetch(s)
      ensures IsCalendar(calendar, h)
      ensures report.NoData? <==> forall s | s in plan.symbols :: fetch(s) == []
      ensures !report.Failed?
      ensures report.Finished? ==>
                var end := Backtest(plan, h, calendar);
                && |report.equityCurve| == |end.days| == |calendar|
                && (forall i | 0 <= i < |calendar| :: report.equityCurve[i] == (calendar[i], end.days[i].equity))
                && |report.trades| == |AllTrades(end.days)|
                && (forall i | 0 <= i < |report.trades| :: report.trades[i] == AllTrades(end.days)[i].fill)
                && Lists(report.finalPositions, end.desk.ledger.book)
    {
      var order, history := FetchHistory(plan.symbols, fetch);
      var dates := UnionCalendar(order, history);
      h, calendar := history, dates;
      EmptyCalendar(plan, fetch, h, calendar);
      if dates == [] {
        report := NoData;
        return;
      }
      report := Replayed(order, history, dates);
      BacktestNeverFails(plan, h, calendar);
      hide Lists, AllTrades, Backtest, IsCalendar;
    }

    /** Sets up the pipeline and replays a calendar. */
    method Replayed(order: seq<Symbol>, h: History, calendar: seq<int>) returns (report: Report)
      requires Backtestable(plan.config) && Fetched(plan, h) && IsCalendar(calendar, h)
      requires order == WithBars(FirstOccurrences(plan.symbols), h)
      ensures var end := Backtest(plan, h, calendar);
        && report.Finished? && report.equityCurve == CurveOf(end.days) && |end.days| == |calendar|
        && report.trades == Fills(AllTrades(end.days))
        && Lists(report.finalPositions, end.desk.ledger.book)
    {
      hide CurveOf, AllTrades, Lists, Fetched, IsCalendar, WithBars;
      var provider := new MarketData(Replay(h, plan.clock, plan.ids));
      var portfolio := new Portfolio(plan.capital, false);
      var broker := new PaperBroker(portfolio, provider, plan.config.terms.commission);
      var risk := new RiskManager(plan.config.limits);
      var engine := new ExecutionEngine(broker, provider, risk, null, plan.config.terms.strategyName);
      var curve, trades := DayLoop(order, h, calendar, engine);
      var list := broker.GetPositions();
      report := Finished(curve, trades, list);
    }

    /** The loop over the dates of a calendar. */
    method DayLoop(order: seq<Symbol>, h: History, calendar: seq<int>, engine: ExecutionEngine)
      returns (curve: seq<(int, real)>, trades: seq<Fill>)
      requires Backtestable(plan.config) && Fetched(plan, h) && IsCalendar(calendar, h)
      requires order == WithBars(FirstOccurrences(plan.symbols), h)
      requires engine.Valid() && engine.repository == null && engine.Config() == plan.config
      requires engine.provider.source == Replay(h, plan.clock, plan.ids)
      requires engine.View() == Start(plan).desk && engine.provider.moment == 0
      modifies engine, engine.broker.portfolio, engine.broker.portfolio.positions.Values, engine.provider
      ensures engine.Valid()
      ensures var end := Backtest(plan, h, calendar);
        && engine.View() == end.desk && |end.days| == |calendar|
        && curve == CurveOf(end.days) && trades == Fills(AllTrades(end.days))
    {
      hide Day, Windows, AsOf, Fetched, IsCalendar, WithBars, RunDays, CurveOf, AllTrades, Fills;
      ghost var p := RunDays(plan, h, calendar, 0);
      curve, trades := [], [];
      StartOfRun(plan, h, calendar);
      NothingRecorded();
      for i := 0 to |calendar|
        invariant p == RunDays(plan, h, calendar, i) && |p.days| == i
        invariant engine.Valid() && engine.View() == p.desk && engine.provider.moment == p.moment
        invariant forall q | q in engine.broker.portfolio.positions.Values ::
          q in old(engine.broker.portfolio.positions.Values) || fresh(q)
        invariant curve == CurveOf(p.days) && trades == Fills(AllTrades(p.days))
      {
        SkippingChangesNothing(FirstOccurrences(plan.symbols), h, calendar[i]);
        NextDay(plan, h, calendar, i);
        var fills, equity, raised := RunDay(plan, h, calendar[i], order, engine, p);
        ghost var next := RunDays(plan, h, calendar, i + 1);
        OneMoreDay(p.days, next.days);
        curve, trades, p := curve + [(calendar[i], equity)], trades + fills, next;
      }
    }
  }

  lemma NothingRecorded()
    ensures CurveOf([]) == [] && Fills(AllTrades([])) == []
  {
  }

  lemma OneMoreDay(days: seq<DayRecord>, more: seq<DayRecord>)
    requires |more| == |days| + 1 && more[..|days|] == days
    ensures CurveOf(more) == CurveOf(days) + [(more[|days|].date, more[|days|].equity)]
    ensures Fills(AllTrades(more)) == Fills(AllTrades(days)) + Fills(more[|days|].log)
  {
    assert more[..|more| - 1] == days;
    assert forall i | 0 <= i < |days| :: more[i] == days[i];
    FillsAppend(AllTrades(days), more[|days|].log);
  }

  lemma NextDay(plan: Plan, h: History, calendar: seq<int>, i: nat)
    requires Backtestable(plan.config) && Fetched(plan, h) && IsCalendar(calendar, h) && i < |calendar|
    ensures var p, p' := RunDays(plan, h, calendar, i), RunDays(plan, h, calendar, i + 1);
      && !p.raised && !p'.raised && |p'.days| == i + 1 && p'.days[i].date == calendar[i]
      && p' == Day(plan, p, calendar[i], AsOf(h, calendar[i]), Windows(FirstOccurrences(plan.symbols), h, calendar[i]))
  {
    hide Day, Windows, AsOf, Disciplined, InBand, Quoted;
    EveryDayIsGood(plan, h, calendar, i + 1);
  }

  lemma EmptyCalendar(plan: Plan, fetch: Symbol -> Window, h: History, calendar: seq<int>)
    requires forall s :: s in h <==> s in plan.symbols && fetch(s) != []
    requires forall s | s in h :: h[s] == fetch(s)
    requires IsCalendar(calendar, h)
    ensures calendar == [] <==> forall s | s in plan.symbols :: fetch(s) == []
  {
    if s :| s in plan.symbols && fetch(s) != [] {
      assert h[s][0].date == h[s][0].date;
      assert HasBar(h[s], h[s][0].date);
      assert Trades(h, h[s][0].date);
    } else if calendar != [] {
      assert Trades(h, calendar[0]);
    }
  }
}
