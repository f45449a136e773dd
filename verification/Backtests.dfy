/** A backtest as a function: the live engine calls, day by day over the union of all bar dates, in markets that quote
    the last close on or before the day. `Backtesters.Backtester.Run` is proved against it. */
module Backtests {
  import opened Domain
  import opened Ledgers
  import opened Trading

  type Window = seq<Bar>

  type History = map<Symbol, Window>

  /** The strategy is any function of the symbol and the bars it is shown. */
  datatype Plan = Plan(config: Config, strategy: (Symbol, Window) -> SignalType, symbols: seq<Symbol>, capital: real,
                       clock: nat -> int, ids: nat -> int)

  /** One day: the equity recorded before trading, the trades, the equity at the end, and the ledger then. */
  datatype DayRecord = DayRecord(date: int, opening: real, log: seq<Entry>, equity: real, closing: Ledger)

  datatype Progress = Progress(desk: Desk, days: seq<DayRecord>, moment: nat, raised: bool)

  ghost predicate Ascending(bars: Window) {
    forall i | 0 < i < |bars| :: bars[i - 1].date < bars[i].date
  }

  /** The bars on or before a date. */
  function UpTo(bars: Window, date: int): Window {
    if bars == [] || bars[|bars| - 1].date <= date then bars else UpTo(bars[..|bars| - 1], date)
  }

  predicate HasBar(bars: Window, date: int) {
    exists i | 0 <= i < |bars| :: bars[i].date == date
  }

  function BarsOf(h: History, s: Symbol): Window {
    if s in h then h[s] else []
  }

  /** The replay provider's quotes on a date: the last close up to then, and no quote before the first bar. */
  function AsOf(h: History, date: int): map<Symbol, real> {
    map s | s in h && UpTo(h[s], date) != [] :: UpTo(h[s], date)[|UpTo(h[s], date)| - 1].close
  }

  /** The bar a date is quoted by: it is not later than the date, and all bars behind it are. */
  ghost predicate LastBar(bars: Window, date: int, i: int) {
    0 <= i < |bars| && bars[i].date <= date && forall j | i < j < |bars| :: bars[j].date > date
  }

  /** In ascending bars the next one decides. */
  lemma {:induction false} LastBarByNext(bars: Window, date: int, i: nat)
    requires Ascending(bars) && i < |bars| && bars[i].date <= date
    ensures LastBar(bars, date, i) <==> i + 1 == |bars| || bars[i + 1].date > date
    decreases |bars|
  {
    var n := |bars| - 1;
    if i + 1 < n {
      LastBarByNext(bars[..n], date, i);
      assert bars[n - 1] == bars[..n][n - 1];
      assert forall j | 0 <= j < n :: bars[..n][j] == bars[j];
    }
  }

  /** What is shown of a history: a prefix, exactly the bars up to the last one not later than the date. */
  lemma {:induction false} UpToIsPrefix(bars: Window, date: int) returns (n: nat)
    ensures n <= |bars| && UpTo(bars, date) == bars[..n]
    ensures n > 0 ==> LastBar(bars, date, n - 1)
    ensures n == 0 ==> forall i | 0 <= i < |bars| :: bars[i].date > date
    ensures forall i | LastBar(bars, date, i) :: i == n - 1
  {
    n := |bars|;
    if bars != [] && bars[n - 1].date > date {
      n := UpToIsPrefix(bars[..n - 1], date);
      assert bars[..|bars| - 1][..n] == bars[..n];
      assert forall i | 0 <= i < |bars| - 1 :: bars[i] == bars[..|bars| - 1][i];
    }
  }

  /** These are the closes of a date: of each symbol the close of its last bar up to then, and of no symbol whose bars
      are all later. */
  ghost predicate ClosesOn(h: History, date: int, closes: map<Symbol, real>) {
    && (forall s :: s in closes <==> s in h && exists i :: LastBar(h[s], date, i))
    && (forall s, i | s in closes && s in h && LastBar(h[s], date, i) :: closes[s] == h[s][i].close)
  }

  lemma QuoteIsClose(h: History, date: int, s: Symbol)
    ensures s in AsOf(h, date) <==> s in h && exists i :: LastBar(h[s], date, i)
    ensures forall i | s in AsOf(h, date) && LastBar(h[s], date, i) :: AsOf(h, date)[s] == h[s][i].close
  {
    if s in h {
      var n := UpToIsPrefix(h[s], date);
    }
  }

  /** A replay quotes the closes, and these are one map. */
  lemma ReplayQuotesCloses(h: History, date: int, closes: map<Symbol, real>)
    ensures ClosesOn(h, date, closes) <==> closes == AsOf(h, date)
  {
    hide AsOf;
    forall s
      ensures s in AsOf(h, date) <==> s in h && exists i :: LastBar(h[s], date, i)
      ensures forall i | s in AsOf(h, date) && LastBar(h[s], date, i) :: AsOf(h, date)[s] == h[s][i].close {
      QuoteIsClose(h, date, s);
    }
  }

  /** Bar by bar: a symbol is quoted at the close of the bar of the date, or of the last one before it. */
  lemma QuoteOfBar(h: History, date: int, s: Symbol, i: nat)
    requires s in h && Ascending(h[s]) && i < |h[s]|
    requires h[s][i].date <= date && (i + 1 == |h[s]| || h[s][i + 1].date > date)
    ensures s in AsOf(h, date) && AsOf(h, date)[s] == h[s][i].close
  {
    hide AsOf;
    LastBarByNext(h[s], date, i);
    QuoteIsClose(h, date, s);
  }

  lemma NoQuoteBefore(h: History, date: int, s: Symbol)
    requires s in h ==> forall i | 0 <= i < |h[s]| :: h[s][i].date > date
    ensures s !in AsOf(h, date)
  {
    hide AsOf;
    QuoteIsClose(h, date, s);
  }

  function Constantly(prices: map<Symbol, real>): nat -> map<Symbol, real> {
    (k: nat) => prices
  }

  function DayMarket(plan: Plan, prices: map<Symbol, real>): Market {
    Market(Constantly(prices), plan.clock, plan.ids)
  }

  /** The keys of a dictionary filled from a list: first occurrences, in order. */
  function FirstOccurrences(symbols: seq<Symbol>): seq<Symbol> {
    if symbols == [] then []
    else
      var rest, last := FirstOccurrences(symbols[..|symbols| - 1]), symbols[|symbols| - 1];
      if last in rest then rest else rest + [last]
  }

  /** The symbols that trade on a date, in dictionary order, each with the bars it has so far. */
  function Windows(symbols: seq<Symbol>, h: History, date: int): seq<(Symbol, Window)> {
    if symbols == [] then []
    else
      var s := symbols[|symbols| - 1];
      Windows(symbols[..|symbols| - 1], h, date)
      + (if HasBar(BarsOf(h, s), date) then [(s, UpTo(BarsOf(h, s), date))] else [])
  }

  function SignalFor(plan: Plan, w: (Symbol, Window)): Signal {
    Signal(w.0, plan.strategy(w.0, w.1), plan.config.terms.strategyName)
  }

  /** The signals of one day, processed in order. */
  function ProcessAll(plan: Plan, d: Desk, m: Market, k: nat, windows: seq<(Symbol, Window)>): Step {
    if windows == [] then Step(d, [], k, false)
    else
      var before := ProcessAll(plan, d, m, k, windows[..|windows| - 1]);
      if before.raised then before
      else
        var last := ProcessSignal(plan.config, before.desk, m, before.moment, SignalFor(plan, windows[|windows| - 1]));
        last.(log := before.log + last.log)
  }

  /** An exception anywhere in a day ends the backtest. */
  function Day(plan: Plan, p: Progress, date: int, prices: map<Symbol, real>, windows: seq<(Symbol, Window)>)
    : Progress
  {
    var m := DayMarket(plan, prices);
    var start := StartNewTradingDay(p.desk, m, p.moment);
    if start.raised then Progress(start.desk, p.days, start.moment, true)
    else
      var exits := RunExitChecks(plan.config, start.desk, m, start.moment);
      if exits.raised then Progress(exits.desk, p.days, exits.moment, true)
      else
        var signals := ProcessAll(plan, exits.desk, m, exits.moment, windows);
        if signals.raised then Progress(signals.desk, p.days, signals.moment, true)
        else
          match GetAccount(signals.desk.ledger, m, signals.moment)
          case None => Progress(signals.desk, p.days, signals.moment + 1, true)
          case Some(a) =>
            var record := DayRecord(date, Equity(p.desk.ledger, prices), exits.log + signals.log, a.Equity(),
                                    signals.desk.ledger);
            Progress(signals.desk, p.days + [record], signals.moment + 1, false)
  }

  function Start(plan: Plan): Progress {
    Progress(Desk(Ledger(plan.capital, false, EMPTY_BOOK, 0.0), None), [], 0, false)
  }

  /** The backtest after the first `n` dates of its calendar. */
  function RunDays(plan: Plan, h: History, calendar: seq<int>, n: nat): Progress
    requires n <= |calendar|
  {
    if n == 0 then Start(plan)
    else
      var before, date := RunDays(plan, h, calendar, n - 1), calendar[n - 1];
      if before.raised then before
      else Day(plan, before, date, AsOf(h, date), Windows(FirstOccurrences(plan.symbols), h, date))
  }

  function Backtest(plan: Plan, h: History, calendar: seq<int>): Progress {
    RunDays(plan, h, calendar, |calendar|)
  }

  ghost predicate Increasing(dates: seq<int>) {
    forall i | 0 < i < |dates| :: dates[i - 1] < dates[i]
  }

  ghost predicate Trades(h: History, date: int) {
    exists s :: s in h && HasBar(h[s], date)
  }

  /** The sorted union of the bar dates. */
  ghost predicate IsCalendar(calendar: seq<int>, h: History) {
    Increasing(calendar) && forall date :: date in calendar <==> Trades(h, date)
  }

  /** What the data provider may return: ascending bars, for requested symbols only, symbols without bars left out. */
  ghost predicate Fetched(plan: Plan, h: History) {
    forall s | s in h :: Ascending(h[s]) && h[s] != [] && s in plan.symbols
  }
}
