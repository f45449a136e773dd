/** Nothing in a backtest sees the future: a two-run property over all histories that agree up to a date. */
module Lookahead {
  import opened Backtests
  import opened Domain
  import opened Ledgers
  import opened Trading

  ghost predicate AgreeUpTo(a: History, b: History, d: int) {
    forall s :: UpTo(BarsOf(a, s), d) == UpTo(BarsOf(b, s), d)
  }

  /** The days of a result on or before a date. */
  function DaysUpTo(days: seq<DayRecord>, d: int): seq<DayRecord> {
    if days == [] then []
    else
      DaysUpTo(days[..|days| - 1], d) + (if days[|days| - 1].date <= d then [days[|days| - 1]] else [])
  }

  lemma {:induction false} UpToTwice(bars: Window, d: int, date: int)
    requires date <= d
    ensures UpTo(UpTo(bars, d), date) == UpTo(bars, date)
  {
    if bars != [] && bars[|bars| - 1].date > d {
      UpToTwice(bars[..|bars| - 1], d, date);
    }
  }

  lemma {:induction false} EarlierDates(bars: Window, i: nat)
    requires Ascending(bars) && i < |bars|
    ensures bars[i].date <= bars[|bars| - 1].date
    ensures i < |bars| - 1 ==> bars[i].date < bars[|bars| - 1].date
  {
    if i < |bars| - 1 {
      EarlierDates(bars[..|bars| - 1], i);
    }
  }

  /** A bar stands on a date exactly when the bars up to the date end on it. */
  lemma {:induction false} HasBarIsLast(bars: Window, date: int)
    requires Ascending(bars)
    ensures HasBar(bars, date) <==> UpTo(bars, date) != [] && UpTo(bars, date)[|UpTo(bars, date)| - 1].date == date
  {
    if bars != [] {
      var init, last := bars[..|bars| - 1], bars[|bars| - 1];
      if last.date <= date {
        if i :| 0 <= i < |bars| && bars[i].date == date {
          EarlierDates(bars, i);
        }
        assert last.date == date ==> HasBar(bars, date);
      } else {
        HasBarIsLast(init, date);
        if i :| 0 <= i < |bars| && bars[i].date == date {
          assert init[i].date == date;
        }
        if i :| 0 <= i < |init| && init[i].date == date {
          assert bars[i].date == date;
        }
      }
    }
  }

  lemma SameBars(plan: Plan, a: History, b: History, d: int, date: int, s: Symbol)
    requires Fetched(plan, a) && Fetched(plan, b) && AgreeUpTo(a, b, d) && date <= d
    ensures UpTo(BarsOf(a, s), date) == UpTo(BarsOf(b, s), date)
    ensures HasBar(BarsOf(a, s), date) <==> HasBar(BarsOf(b, s), date)
  {
    UpToTwice(BarsOf(a, s), d, date);
    UpToTwice(BarsOf(b, s), d, date);
    HasBarIsLast(BarsOf(a, s), date);
    HasBarIsLast(BarsOf(b, s), date);
  }

  lemma SameQuotes(plan: Plan, a: History, b: History, d: int, date: int)
    requires Fetched(plan, a) && Fetched(plan, b) && AgreeUpTo(a, b, d) && date <= d
    ensures AsOf(a, date) == AsOf(b, date)
  {
    forall s
      ensures s in AsOf(a, date) <==> s in AsOf(b, date)
      ensures s in AsOf(a, date) ==> AsOf(a, date)[s] == AsOf(b, date)[s] {
      SameBars(plan, a, b, d, date, s);
    }
  }

  lemma {:induction false} SameWindows(plan: Plan, a: History, b: History, d: int, date: int, symbols: seq<Symbol>)
    requires Fetched(plan, a) && Fetched(plan, b) && AgreeUpTo(a, b, d) && date <= d
    ensures Windows(symbols, a, date) == Windows(symbols, b, date)
  {
    if symbols != [] {
      SameWindows(plan, a, b, d, date, symbols[..|symbols| - 1]);
      SameBars(plan, a, b, d, date, symbols[|symbols| - 1]);
    }
  }

  /** The part of a calendar on or before a date. */
  function Early(dates: seq<int>, d: int): seq<int> {
    if dates == [] || dates[|dates| - 1] <= d then dates else Early(dates[..|dates| - 1], d)
  }

  lemma {:induction false} LastIsLatest(dates: seq<int>, i: nat)
    requires Increasing(dates) && i < |dates|
    ensures dates[i] <= dates[|dates| - 1] && (i < |dates| - 1 ==> dates[i] < dates[|dates| - 1])
  {
    if i < |dates| - 1 {
      LastIsLatest(dates[..|dates| - 1], i);
    }
  }

  lemma {:induction false} EarlyDates(dates: seq<int>, d: int)
    requires Increasing(dates)
    ensures Early(dates, d) <= dates && Increasing(Early(dates, d))
    ensures forall date :: date in Early(dates, d) <==> date in dates && date <= d
  {
    if dates != [] {
      var init, last := dates[..|dates| - 1], dates[|dates| - 1];
      assert dates == init + [last];
      forall date | date in dates ensures date <= last {
        var i :| 0 <= i < |dates| && dates[i] == date;
        LastIsLatest(dates, i);
      }
      if last > d {
        EarlyDates(init, d);
      }
    }
  }

  lemma {:induction false} IncreasingIsUnique(a: seq<int>, b: seq<int>)
    requires Increasing(a) && Increasing(b) && forall date :: date in a <==> date in b
    ensures a == b
  {
    if a != [] {
      assert a[|a| - 1] in a;
    }
    if b != [] {
      assert b[|b| - 1] in b;
    }
    if a != [] && b != [] {
      SameLast(a, b);
      DropLast(a);
      DropLast(b);
      var init, init' := a[..|a| - 1], b[..|b| - 1];
      forall date ensures date in init <==> date in init' {
        assert date in a <==> date in b;
      }
      IncreasingIsUnique(init, init');
    }
  }

  lemma DropLast(a: seq<int>)
    requires Increasing(a) && a != []
    ensures Increasing(a[..|a| - 1])
    ensures forall date :: date in a[..|a| - 1] <==> date in a && date != a[|a| - 1]
  {
    var init, last := a[..|a| - 1], a[|a| - 1];
    assert a == init + [last];
    forall date | date in init ensures date != last {
      var i :| 0 <= i < |init| && init[i] == date;
      LastIsLatest(a, i);
    }
  }

  lemma SameLast(a: seq<int>, b: seq<int>)
    requires Increasing(a) && Increasing(b) && a != [] && b != []
    requires a[|a| - 1] in b && b[|b| - 1] in a
    ensures a[|a| - 1] == b[|b| - 1]
  {
    var i :| 0 <= i < |b| && b[i] == a[|a| - 1];
    var j :| 0 <= j < |a| && a[j] == b[|b| - 1];
    LastIsLatest(b, i);
    LastIsLatest(a, j);
  }

  lemma SameCalendar(plan: Plan, a: History, b: History, ca: seq<int>, cb: seq<int>, d: int)
    requires Fetched(plan, a) && Fetched(plan, b) && AgreeUpTo(a, b, d) && IsCalendar(ca, a) && IsCalendar(cb, b)
    ensures Early(ca, d) == Early(cb, d)
  {
    EarlyDates(ca, d);
    EarlyDates(cb, d);
    forall date ensures date in Early(ca, d) <==> date in Early(cb, d) {
      if date <= d {
        forall s ensures HasBar(BarsOf(a, s), date) <==> HasBar(BarsOf(b, s), date) {
          SameBars(plan, a, b, d, date, s);
        }
        SameTrading(a, b, date);
      }
    }
    IncreasingIsUnique(Early(ca, d), Early(cb, d));
  }

  lemma SameTrading(a: History, b: History, date: int)
    requires forall s :: HasBar(BarsOf(a, s), date) <==> HasBar(BarsOf(b, s), date)
    ensures Trades(a, date) <==> Trades(b, date)
  {
    if s :| s in a && HasBar(a[s], date) {
      assert HasBar(BarsOf(b, s), date);
    }
    if s :| s in b && HasBar(b[s], date) {
      assert HasBar(BarsOf(a, s), date);
    }
  }

  lemma {:induction false} SameProgress(plan: Plan, a: History, b: History, ca: seq<int>, cb: seq<int>, d: int, n: nat)
    requires Fetched(plan, a) && Fetched(plan, b) && AgreeUpTo(a, b, d)
    requires n <= |ca| && n <= |cb| && ca[..n] == cb[..n] && forall i | 0 <= i < n :: ca[i] <= d
    ensures RunDays(plan, a, ca, n) == RunDays(plan, b, cb, n)
  {
    if n > 0 {
      var date := ca[n - 1];
      assert ca[..n][n - 1] == cb[..n][n - 1] == date;
      assert ca[..n - 1] == ca[..n][..n - 1] && cb[..n - 1] == cb[..n][..n - 1];
      SameProgress(plan, a, b, ca, cb, d, n - 1);
      SameQuotes(plan, a, b, d, date);
      SameWindows(plan, a, b, d, date, FirstOccurrences(plan.symbols));
      hide Day, AsOf, Windows;
    }
  }

  lemma {:induction false} LaterDaysAdd(plan: Plan, h: History, calendar: seq<int>, d: int, k: nat, n: nat)
    requires k <= n <= |calendar| && forall i | k <= i < n :: calendar[i] > d
    ensures DaysUpTo(RunDays(plan, h, calendar, n).days, d) == DaysUpTo(RunDays(plan, h, calendar, k).days, d)
  {
    hide Day, AsOf, Windows, DaysUpTo, FirstOccurrences;
    if k < n {
      LaterDaysAdd(plan, h, calendar, d, k, n - 1);
      var before, date := RunDays(plan, h, calendar, n - 1), calendar[n - 1];
      DayAddsLater(plan, before, date, AsOf(h, date), Windows(FirstOccurrences(plan.symbols), h, date), d);
    }
  }

  lemma DayAddsLater(plan: Plan, p: Progress, date: int, prices: map<Symbol, real>, windows: seq<(Symbol, Window)>,
                     d: int)
    requires date > d
    ensures DaysUpTo(Day(plan, p, date, prices, windows).days, d) == DaysUpTo(p.days, d)
  {
    hide GetAccount, RunExitChecks, ProcessAll, Equity;
    var days := Day(plan, p, date, prices, windows).days;
    if days != p.days {
      assert days[..|days| - 1] == p.days;
    }
  }

  /** No lookahead: for any strategy, limits and commission, two histories that agree on every bar up to a date give
      the same trades and the same equity on every day up to it, whatever calendars and symbols they have later. */
  lemma NothingSeesTheFuture(plan: Plan, a: History, b: History, ca: seq<int>, cb: seq<int>, d: int)
    requires Fetched(plan, a) && Fetched(plan, b) && AgreeUpTo(a, b, d)
    requires IsCalendar(ca, a) && IsCalendar(cb, b)
    ensures DaysUpTo(Backtest(plan, a, ca).days, d) == DaysUpTo(Backtest(plan, b, cb).days, d)
  {
    SameCalendar(plan, a, b, ca, cb, d);
    var n := |Early(ca, d)|;
    EarlyDates(ca, d);
    EarlyDates(cb, d);
    assert ca[..n] == Early(ca, d) == cb[..n];
    forall i | 0 <= i < n ensures ca[i] <= d {
      assert Early(ca, d)[i] in Early(ca, d);
    }
    SameProgress(plan, a, b, ca, cb, d, n);
    LaterThanEarly(ca, d);
    LaterThanEarly(cb, d);
    LaterDaysAdd(plan, a, ca, d, n, |ca|);
    LaterDaysAdd(plan, b, cb, d, n, |cb|);
  }

  lemma {:induction false} LaterThanEarly(dates: seq<int>, d: int)
    requires Increasing(dates)
    ensures |Early(dates, d)| <= |dates| && forall i | |Early(dates, d)| <= i < |dates| :: dates[i] > d
  {
    if dates != [] && dates[|dates| - 1] > d {
      LaterThanEarly(dates[..|dates| - 1], d);
    }
  }
}
