/** A backtest is a run of the live engine: date by date the calls of a trading day, in markets that quote the closes of
    the date. */
module BacktestRuns {
  import opened Backtests
  import opened BacktestLaws
  import opened BacktestTheorems
  import opened Domain
  import opened Jobs
  import opened Ledgers
  import opened Runs
  import opened Stores
  import opened Tally
  import opened Trading

  /** The batch at which the call after the first `i` begins. */
  function MomentAt(c: Config, d: Desk, k: nat, evs: seq<Event>, i: nat): nat
    requires i <= |evs|
  {
    if i == 0 then k else Call(c, Run(c, d, EMPTY_STORE, evs[..i - 1]).desk, evs[i - 1]).moment
  }

  /** Every call begins at the batch where the one before it ended. */
  ghost predicate OneAfterAnother(c: Config, d: Desk, k: nat, evs: seq<Event>) {
    forall i | 0 <= i < |evs| :: !evs[i].Rebuild? && evs[i].k == MomentAt(c, d, k, evs, i)
  }

  lemma OneMoreCall(c: Config, d: Desk, k: nat, evs: seq<Event>, ev: Event)
    requires OneAfterAnother(c, d, k, evs) && !ev.Rebuild? && ev.k == MomentAt(c, d, k, evs, |evs|)
    ensures OneAfterAnother(c, d, k, evs + [ev])
    ensures MomentAt(c, d, k, evs + [ev], |evs| + 1) == Call(c, Run(c, d, EMPTY_STORE, evs).desk, ev).moment
  {
    hide Call, Run;
    var all := evs + [ev];
    forall i | 0 <= i <= |evs| ensures MomentAt(c, d, k, all, i) == MomentAt(c, d, k, evs, i) {
      if i > 0 {
        assert all[..i - 1] == evs[..i - 1];
      }
    }
    assert all[..|evs|] == evs;
  }

  lemma RunSnoc(c: Config, d: Desk, st: Store, evs: seq<Event>, ev: Event)
    requires !c.terms.persist && !ev.SnapshotNow?
    ensures var before := Run(c, d, st, evs);
      var step := Call(c, before.desk, ev);
      Run(c, d, st, evs + [ev])
      == Outcome(step.desk, before.store, before.log + step.log, before.raised || step.raised)
  {
    assert (evs + [ev])[..|evs|] == evs;
    hide Call;
  }

  /** These calls are the day's signals, one for each window. */
  ghost predicate SignalsOn(plan: Plan, m: Market, windows: seq<(Symbol, Window)>, evs: seq<Event>) {
    && |evs| == |windows|
    && forall i | 0 <= i < |evs| ::
         && evs[i].OnSignal? && evs[i].m == m
         && evs[i].sig == Signal(windows[i].0, plan.strategy(windows[i].0, windows[i].1),
                                 plan.config.terms.strategyName)
  }

  /** The signals of a day, after the calls made before them. */
  lemma {:induction false} SignalsAreARun(plan: Plan, d: Desk, m: Market, k: nat, past: seq<Event>,
                                          windows: seq<(Symbol, Window)>)
    returns (evs: seq<Event>)
    requires !plan.config.terms.persist && OneAfterAnother(plan.config, d, k, past)
    requires !Run(plan.config, d, EMPTY_STORE, past).raised
    requires var before := Run(plan.config, d, EMPTY_STORE, past);
      !ProcessAll(plan, before.desk, m, MomentAt(plan.config, d, k, past, |past|), windows).raised
    ensures var c, before := plan.config, Run(plan.config, d, EMPTY_STORE, past);
      var step := ProcessAll(plan, before.desk, m, MomentAt(c, d, k, past, |past|), windows);
      && SignalsOn(plan, m, windows, evs) && OneAfterAnother(c, d, k, past + evs)
      && MomentAt(c, d, k, past + evs, |past + evs|) == step.moment
      && Run(c, d, EMPTY_STORE, past + evs) == Outcome(step.desk, before.store, before.log + step.log, false)
  {
    hide ProcessSignal, Run, OneAfterAnother, MomentAt;
    var c, before := plan.config, Run(plan.config, d, EMPTY_STORE, past);
    evs := [];
    assert past + [] == past;
    if windows != [] {
      var init, w := windows[..|windows| - 1], windows[|windows| - 1];
      var k0 := MomentAt(c, d, k, past, |past|);
      var earlier := SignalsAreARun(plan, d, m, k, past, init);
      var step := ProcessAll(plan, before.desk, m, k0, init);
      var ev := OnSignal(m, step.moment, SignalFor(plan, w));
      OneMoreCall(c, d, k, past + earlier, ev);
      RunSnoc(c, d, EMPTY_STORE, past + earlier, ev);
      evs := earlier + [ev];
      assert past + evs == past + earlier + [ev];
      assert before.log + (step.log + ProcessSignal(c, step.desk, m, step.moment, ev.sig).log)
          == before.log + step.log + ProcessSignal(c, step.desk, m, step.moment, ev.sig).log;
    }
  }

  /** A day that does not raise is a run of calls, each begun where the one before it ended: the day's baseline, the
      forced exits, then the signals; after them the account is marked once more. */
  lemma DayIsARun(plan: Plan, p: Progress, date: int, prices: map<Symbol, real>, windows: seq<(Symbol, Window)>)
    returns (evs: seq<Event>)
    requires Backtestable(plan.config) && !Day(plan, p, date, prices, windows).raised
    ensures var c, m, p' := plan.config, DayMarket(plan, prices), Day(plan, p, date, prices, windows);
      && |evs| == |windows| + 2 && evs[0] == NewDay(m, p.moment) && evs[1] == ExitChecks(m, p.moment + 1)
      && SignalsOn(plan, m, windows, evs[2..])
      && OneAfterAnother(c, p.desk, p.moment, evs)
      && p'.moment == MomentAt(c, p.desk, p.moment, evs, |evs|) + 1
      && |p'.days| == |p.days| + 1
      && Run(c, p.desk, EMPTY_STORE, evs) == Outcome(p'.desk, EMPTY_STORE, p'.days[|p.days|].log, false)
  {
    hide RunExitChecks, GetAccount, Equity, ProcessAll, Run, MomentAt, OneAfterAnother;
    var c, m, k := plan.config, DayMarket(plan, prices), p.moment;
    NoCalls(c, p.desk, k);
    var start := StartNewTradingDay(p.desk, m, k);
    OneMoreCall(c, p.desk, k, [], NewDay(m, k));
    RunSnoc(c, p.desk, EMPTY_STORE, [], NewDay(m, k));
    assert [] + [NewDay(m, k)] == [NewDay(m, k)];
    var exits := RunExitChecks(c, start.desk, m, start.moment);
    OneMoreCall(c, p.desk, k, [NewDay(m, k)], ExitChecks(m, k + 1));
    RunSnoc(c, p.desk, EMPTY_STORE, [NewDay(m, k)], ExitChecks(m, k + 1));
    var past := [NewDay(m, k)] + [ExitChecks(m, k + 1)];
    assert Run(c, p.desk, EMPTY_STORE, past) == Outcome(exits.desk, EMPTY_STORE, exits.log, false);
    var signals := SignalsAreARun(plan, p.desk, m, k, past, windows);
    evs := past + signals;
    assert evs[2..] == signals;
  }

  lemma NoCalls(c: Config, d: Desk, k: nat)
    ensures Run(c, d, EMPTY_STORE, []) == Outcome(d, EMPTY_STORE, [], false)
    ensures OneAfterAnother(c, d, k, []) && MomentAt(c, d, k, [], 0) == k
  {
  }

  /** The position at which a symbol is first asked for. */
  ghost predicate FirstAt(symbols: seq<Symbol>, s: Symbol, i: int) {
    0 <= i < |symbols| && symbols[i] == s && s !in symbols[..i]
  }

  /** The dictionary's keys: each symbol once, in the order of first requests. */
  lemma {:induction false} OccurrencesInOrder(symbols: seq<Symbol>)
    ensures Distinct(FirstOccurrences(symbols))
    ensures forall s :: s in FirstOccurrences(symbols) <==> s in symbols
    ensures forall i, j, p, q | 0 <= i < j < |FirstOccurrences(symbols)| ::
              FirstAt(symbols, FirstOccurrences(symbols)[i], p) && FirstAt(symbols, FirstOccurrences(symbols)[j], q)
              ==> p < q
  {
    if symbols != [] {
      var init, last := symbols[..|symbols| - 1], symbols[|symbols| - 1];
      var rest, all := FirstOccurrences(init), FirstOccurrences(symbols);
      OccurrencesInOrder(init);
      assert symbols == init + [last] && symbols[..|init|] == init;
      forall s, p | s in init && FirstAt(symbols, s, p) ensures FirstAt(init, s, p) {
        assert p < |init|;
        assert symbols[..p] == init[..p];
      }
      forall i, j, p, q | 0 <= i < j < |all| && FirstAt(symbols, all[i], p) && FirstAt(symbols, all[j], q)
        ensures p < q {
        assert all[i] in init;
        assert FirstAt(init, all[i], p);
        if j < |rest| {
          assert all[j] in init;
          assert FirstAt(init, all[j], q);
        } else {
          assert all[j] == last && last !in init;
          assert q >= |init|;
        }
      }
    }
  }

  ghost predicate HasWindow(windows: seq<(Symbol, Window)>, s: Symbol) {
    exists i :: 0 <= i < |windows| && windows[i].0 == s
  }

  ghost predicate OrderedBy(order: seq<Symbol>, windows: seq<(Symbol, Window)>) {
    forall i, j, p, q | 0 <= i < j < |windows| && 0 <= p < |order| && 0 <= q < |order| ::
      windows[i].0 == order[p] && windows[j].0 == order[q] ==> p < q
  }

  lemma MoreOrder(windows: seq<(Symbol, Window)>, order: seq<Symbol>, s: Symbol)
    requires OrderedBy(order, windows) && Distinct(order + [s])
    requires forall i | 0 <= i < |windows| :: windows[i].0 in order
    ensures OrderedBy(order + [s], windows)
    ensures forall i, p | 0 <= i < |windows| && 0 <= p <= |order| && windows[i].0 == (order + [s])[p] :: p < |order|
  {
    var more := order + [s];
    forall i, p | 0 <= i < |windows| && 0 <= p < |more| && windows[i].0 == more[p] ensures p < |order| {
      var r :| 0 <= r < |order| && order[r] == windows[i].0;
      assert more[r] == more[p];
    }
  }

  lemma OneMoreWindow(windows: seq<(Symbol, Window)>, w: (Symbol, Window), order: seq<Symbol>)
    requires OrderedBy(order, windows) && Distinct(order + [w.0])
    requires forall i | 0 <= i < |windows| :: windows[i].0 in order
    ensures OrderedBy(order + [w.0], windows + [w])
  {
    var all, more := windows + [w], order + [w.0];
    MoreOrder(windows, order, w.0);
    forall i, j, p, q | && 0 <= i < j < |all| && 0 <= p < |more| && 0 <= q < |more|
                        && all[i].0 == more[p] && all[j].0 == more[q]
      ensures p < q {
      assert all[i] == windows[i];
      if j == |windows| {
        assert more[q] == more[|order|];
      } else {
        assert all[j] == windows[j];
      }
    }
  }

  lemma OneMoreName(windows: seq<(Symbol, Window)>, w: (Symbol, Window), s: Symbol)
    ensures HasWindow(windows + [w], s) <==> HasWindow(windows, s) || s == w.0
  {
    var all := windows + [w];
    assert all[|windows|].0 == w.0;
    if HasWindow(windows, s) {
      var i :| 0 <= i < |windows| && windows[i].0 == s;
      assert all[i].0 == s;
    }
    if HasWindow(all, s) && s != w.0 {
      var i :| 0 <= i < |all| && all[i].0 == s;
      assert windows[i].0 == s;
    }
  }

  /** The symbols that trade on a date: none is left out, none added, and the order is kept. */
  lemma {:induction false} WindowsKeepOrder(order: seq<Symbol>, h: History, date: int)
    requires Distinct(order)
    ensures OrderedBy(order, Windows(order, h, date))
    ensures forall s :: HasWindow(Windows(order, h, date), s) <==> s in order && HasBar(BarsOf(h, s), date)
    ensures forall i | 0 <= i < |Windows(order, h, date)| :: Windows(order, h, date)[i].0 in order
  {
    hide HasBar, UpTo, OrderedBy, HasWindow;
    if order == [] {
      NoWindows(order);
    } else {
      var init, s := order[..|order| - 1], order[|order| - 1];
      var before, all := Windows(init, h, date), Windows(order, h, date);
      WindowsKeepOrder(init, h, date);
      assert order == init + [s];
      if HasBar(BarsOf(h, s), date) {
        var w := (s, UpTo(BarsOf(h, s), date));
        OneMoreWindow(before, w, init);
        forall t {
          OneMoreName(before, w, t);
        }
      } else {
        MoreOrder(before, init, s);
        assert all == before;
      }
    }
  }

  lemma NoWindows(order: seq<Symbol>)
    ensures OrderedBy(order, []) && forall s :: !HasWindow([], s)
  {
  }

  /** One date of the source's loop, told by the bars: new day, exit check, then one signal for each requested symbol
      with a bar on that date, in the order of first requests, each from the symbol's bars up to that one; all in a
      market that quotes the closes of the date. */
  ghost predicate TradingDay(plan: Plan, h: History, date: int, closes: map<Symbol, real>, evs: seq<Event>) {
    && |evs| >= 2 && evs[0].NewDay? && evs[1].ExitChecks?
    && (forall i | 0 <= i < |evs| :: !evs[i].Rebuild? && evs[i].m == DayMarket(plan, closes))
    && (forall i | 2 <= i < |evs| :: SignalOfBar(plan, h, date, evs[i]))
    && (forall s, j | s in plan.symbols && s in h && 0 <= j < |h[s]| && h[s][j].date == date ::
          exists i :: 2 <= i < |evs| && SignalsFor(evs[i], s))
    && (forall i, j, p, q | 2 <= i < j < |evs| && FirstAt(plan.symbols, evs[i].sig.symbol, p)
                            && FirstAt(plan.symbols, evs[j].sig.symbol, q) :: p < q)
  }

  ghost predicate SignalsFor(ev: Event, s: Symbol) {
    ev.OnSignal? && ev.sig.symbol == s
  }

  ghost predicate SignalOfBar(plan: Plan, h: History, date: int, ev: Event) {
    && ev.OnSignal? && ev.sig.symbol in plan.symbols && ev.sig.symbol in h
    && exists j ::
         && 0 <= j < |h[ev.sig.symbol]| && h[ev.sig.symbol][j].date == date
         && ev.sig == Signal(ev.sig.symbol, plan.strategy(ev.sig.symbol, h[ev.sig.symbol][..j + 1]),
                             plan.config.terms.strategyName)
  }

  lemma DictionaryOrder(symbols: seq<Symbol>, windows: seq<(Symbol, Window)>)
    requires OrderedBy(FirstOccurrences(symbols), windows)
    requires forall i | 0 <= i < |windows| :: windows[i].0 in FirstOccurrences(symbols)
    ensures forall i, j, p, q | && 0 <= i < j < |windows| && FirstAt(symbols, windows[i].0, p)
                                && FirstAt(symbols, windows[j].0, q) :: p < q
  {
    hide FirstAt, FirstOccurrences;
    OccurrencesInOrder(symbols);
    var order := FirstOccurrences(symbols);
    forall i, j, p, q | 0 <= i < j < |windows| && FirstAt(symbols, windows[i].0, p) && FirstAt(symbols, windows[j].0, q)
      ensures p < q {
      var a :| 0 <= a < |order| && order[a] == windows[i].0;
      var b :| 0 <= b < |order| && order[b] == windows[j].0;
      assert a < b;
    }
  }

  lemma BarIsThere(bars: Window, date: int, j: nat)
    requires j < |bars| && bars[j].date == date
    ensures HasBar(bars, date)
  {
  }

  lemma CallsOfBars(plan: Plan, h: History, date: int, closes: map<Symbol, real>, evs: seq<Event>)
    requires Fetched(plan, h)
    requires var m, windows := DayMarket(plan, closes), Windows(FirstOccurrences(plan.symbols), h, date);
      && |evs| == |windows| + 2 && evs[0].NewDay? && evs[1].ExitChecks? && evs[0].m == m && evs[1].m == m
      && SignalsOn(plan, m, windows, evs[2..])
    ensures TradingDay(plan, h, date, closes, evs)
  {
    hide Windows, FirstOccurrences, HasBar, OrderedBy, Distinct, FirstAt, DayMarket, Fetched;
    var order := FirstOccurrences(plan.symbols);
    var windows := Windows(order, h, date);
    OccurrencesInOrder(plan.symbols);
    WindowsKeepOrder(order, h, date);
    WindowsGrowBarByBar(plan, h, date, order);
    DictionaryOrder(plan.symbols, windows);
    forall i | 2 <= i < |evs|
      ensures evs[i].OnSignal? && evs[i].m == DayMarket(plan, closes) && evs[i].sig.symbol == windows[i - 2].0
      ensures SignalOfBar(plan, h, date, evs[i]) {
      assert evs[i] == evs[2..][i - 2] && windows[i - 2] in windows;
    }
    forall s, j | s in plan.symbols && s in h && 0 <= j < |h[s]| && h[s][j].date == date
      ensures exists i :: 2 <= i < |evs| && SignalsFor(evs[i], s) {
      BarIsThere(h[s], date, j);
      assert HasWindow(windows, s);
      var i :| 0 <= i < |windows| && windows[i].0 == s;
      assert SignalsFor(evs[i + 2], s);
    }
  }

  function Flat(days: seq<seq<Event>>): seq<Event> {
    if days == [] then [] else Flat(days[..|days| - 1]) + days[|days| - 1]
  }

  /** The promise of the backtester, that it is the live pipeline fed with recorded bars: over its calendar it is the
      run of the engine's own calls, trading day by trading day, from the capital. */
  lemma {:induction false} BacktestIsARun(plan: Plan, h: History, calendar: seq<int>, closes: seq<map<Symbol, real>>,
                                          n: nat)
    returns (days: seq<seq<Event>>)
    requires Backtestable(plan.config) && Fetched(plan, h) && IsCalendar(calendar, h) && n <= |calendar|
    requires ClosesOver(h, calendar, closes)
    ensures |days| == n && forall i | 0 <= i < n :: TradingDay(plan, h, calendar[i], closes[i], days[i])
    ensures var start, end := Desk(Ledger(plan.capital, false, EMPTY_BOOK, 0.0), None), RunDays(plan, h, calendar, n);
      Run(plan.config, start, EMPTY_STORE, Flat(days)) == Outcome(end.desk, EMPTY_STORE, AllTrades(end.days), false)
  {
    hide RunDays, Run, TradingDay, AsOf, Windows, FirstOccurrences, GoodDay, SignalsOn, OneAfterAnother, MomentAt;
    var start := Desk(Ledger(plan.capital, false, EMPTY_BOOK, 0.0), None);
    days := [];
    if n == 0 {
      StartOfRun(plan, h, calendar);
      NoCalls(plan.config, start, 0);
    } else {
      var earlier := BacktestIsARun(plan, h, calendar, closes, n - 1);
      ClosesAreQuotes(h, calendar, closes, n - 1);
      var evs := NextDayIsARun(plan, h, calendar, n);
      days := earlier + [evs];
      assert days[..n - 1] == earlier;
      RunAppend(plan.config, start, EMPTY_STORE, Flat(earlier), evs);
    }
  }

  lemma NextDayIsARun(plan: Plan, h: History, calendar: seq<int>, n: nat) returns (evs: seq<Event>)
    requires Backtestable(plan.config) && Fetched(plan, h) && IsCalendar(calendar, h) && 0 < n <= |calendar|
    ensures TradingDay(plan, h, calendar[n - 1], AsOf(h, calendar[n - 1]), evs)
    ensures var before, after := RunDays(plan, h, calendar, n - 1), RunDays(plan, h, calendar, n);
      && after.days != [] && AllTrades(after.days) == AllTrades(before.days) + after.days[|after.days| - 1].log
      && Run(plan.config, before.desk, EMPTY_STORE, evs)
         == Outcome(after.desk, EMPTY_STORE, after.days[|after.days| - 1].log, false)
  {
    hide RunDays, Run, TradingDay, AsOf, Windows, FirstOccurrences, GoodDay, Day, SignalsOn, OneAfterAnother, MomentAt,
      IsCalendar, Fetched;
    var before, after, date := RunDays(plan, h, calendar, n - 1), RunDays(plan, h, calendar, n), calendar[n - 1];
    OneDay(plan, h, calendar, n);
    evs := DayIsARun(plan, before, date, AsOf(h, date), Windows(FirstOccurrences(plan.symbols), h, date));
    ShapeOfDay(plan, h, before, date, evs);
    assert after.days[..|after.days| - 1] == before.days;
  }

  lemma ShapeOfDay(plan: Plan, h: History, p: Progress, date: int, evs: seq<Event>)
    requires Fetched(plan, h)
    requires var m, windows := DayMarket(plan, AsOf(h, date)), Windows(FirstOccurrences(plan.symbols), h, date);
      && |evs| == |windows| + 2 && evs[0] == NewDay(m, p.moment) && evs[1] == ExitChecks(m, p.moment + 1)
      && SignalsOn(plan, m, windows, evs[2..])
    ensures TradingDay(plan, h, date, AsOf(h, date), evs)
  {
    hide TradingDay, AsOf, Windows, FirstOccurrences, SignalsOn, Fetched, DayMarket;
    CallsOfBars(plan, h, date, AsOf(h, date), evs);
  }

  lemma OneDay(plan: Plan, h: History, calendar: seq<int>, n: nat)
    requires Backtestable(plan.config) && Fetched(plan, h) && IsCalendar(calendar, h) && 0 < n <= |calendar|
    ensures var before, after := RunDays(plan, h, calendar, n - 1), RunDays(plan, h, calendar, n);
      var date := calendar[n - 1];
      && after == Day(plan, before, date, AsOf(h, date), Windows(FirstOccurrences(plan.symbols), h, date))
      && !after.raised && |after.days| == |before.days| + 1 && after.days[..|before.days|] == before.days
  {
    hide Day, AsOf, Windows, FirstOccurrences, Disciplined, InBand, Quoted;
    EveryDayIsGood(plan, h, calendar, n);
  }
}
