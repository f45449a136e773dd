/** The daily loss limit: which equity a signal is measured against, and when it is not measured at all. The baseline is
    not stored, so a restart forgets it. */
module DailyLoss {
  import opened Arithmetic
  import opened BacktestTheorems
  import opened Domain
  import opened Jobs
  import opened Ledgers
  import opened Risk
  import opened Runs
  import opened Stores
  import opened Trading

  /** Neither a new day nor a restart. */
  predicate WithinDay(evs: seq<Event>) {
    forall i | 0 <= i < |evs| :: !evs[i].NewDay? && !evs[i].Rebuild?
  }

  lemma {:induction false} ExitsKeepBaseline(t: Terms, d: Desk, m: Market, k: nat, orders: seq<Order>)
    ensures SubmitAll(t, d, m, k, orders).desk.baseline == d.baseline
  {
    hide ApplyFill, GetAccount;
    if orders != [] {
      ExitsKeepBaseline(t, d, m, k, orders[..|orders| - 1]);
    }
  }

  lemma CallKeepsBaseline(c: Config, d: Desk, ev: Event)
    requires !ev.NewDay? && !ev.Rebuild?
    ensures Call(c, d, ev).desk.baseline == d.baseline
  {
    hide ApplyFill, GetAccount, EvaluateSignal, CheckExits;
    if ev.ExitChecks? && d.ledger.book.held.Keys <= ev.m.prices(ev.k).Keys {
      ExitsKeepBaseline(c.terms, d, ev.m, ev.k + 1,
                        CheckExits(c.limits.stopLossPct, c.limits.takeProfitPct, d.ledger.book, ev.m.prices(ev.k)));
      hide SubmitAll;
    }
  }

  lemma {:induction false} DayKeepsBaseline(c: Config, d: Desk, st: Store, evs: seq<Event>)
    requires WithinDay(evs)
    ensures Run(c, d, st, evs).desk.baseline == d.baseline
  {
    hide Call, Stored;
    if evs != [] {
      var init := evs[..|evs| - 1];
      DayKeepsBaseline(c, d, st, init);
      CallKeepsBaseline(c, Run(c, d, st, init).desk, evs[|evs| - 1]);
    }
  }

  /** The baseline at any point of any run: what the account was worth, at the quotes of that batch, when the last new
      day began, and nothing since the last restart. A new day that raises leaves the baseline of the day before. */
  lemma BaselineIsMorningEquity(c: Config, d: Desk, st: Store, past: seq<Event>, ev: Event, rest: seq<Event>)
    requires WithinDay(rest) && (ev.NewDay? || ev.Rebuild?)
    ensures var before, now := Run(c, d, st, past).desk, Run(c, d, st, past + [ev] + rest).desk;
      && (ev.Rebuild? ==> now.baseline == None)
      && (ev.NewDay? ==>
            now.baseline == if before.ledger.book.held.Keys <= ev.m.prices(ev.k).Keys then
                              Some(before.ledger.cash + PositionsValue(before.ledger.book, ev.m.prices(ev.k)))
                            else before.baseline)
  {
    hide Run, Stored, PositionsValue;
    var dawn := Run(c, d, st, past + [ev]);
    RunAppend(c, d, st, past, [ev]);
    RunOne(c, Run(c, d, st, past).desk, Run(c, d, st, past).store, ev);
    RunAppend(c, d, st, past + [ev], rest);
    DayKeepsBaseline(c, dawn.desk, dawn.store, rest);
  }

  /** Where the gate is open for a signal the limit plays no part in what becomes of it. */
  lemma OpenGate(c: Config, d: Desk, m: Market, k: nat, sig: Signal)
    requires GetAccount(d.ledger, m, k + 1).Some? ==>
               !DailyLossHit(c.limits.dailyLossLimitPct, GetAccount(d.ledger, m, k + 1).value.Equity(), d.baseline)
    ensures ProcessSignal(c, d, m, k, sig) == ProcessSignal(WithoutGate(c), d, m, k, sig)
  {
    hide GetAccount, DailyLossHit, Submit, Lots, Times;
    if GetAccount(d.ledger, m, k + 1).Some? {
      NoGate(GetAccount(d.ledger, m, k + 1).value.Equity(), d.baseline);
    }
  }

  /** The limit is enforced from a new day on until the next restart: a BUY is processed as if there were no limit as
      long as equity stands above the morning's less the limit, and buys nothing once it does not. */
  lemma LossLimitStopsBuying(c: Config, d: Desk, st: Store, past: seq<Event>, morning: Event, rest: seq<Event>,
                             m: Market, k: nat, sig: Signal)
    requires WithinDay(rest) && morning.NewDay? && sig.kind == BUY && c.limits.dailyLossLimitPct.Some?
    requires GetAccount(Run(c, d, st, past).desk.ledger, morning.m, morning.k).Some?
    requires var now := Run(c, d, st, past + [morning] + rest).desk;
      now.ledger.book.held.Keys <= m.prices(k + 1).Keys
    ensures var before, now := Run(c, d, st, past).desk.ledger, Run(c, d, st, past + [morning] + rest).desk;
      var start := before.cash + PositionsValue(before.book, morning.m.prices(morning.k));
      var equity := now.ledger.cash + PositionsValue(now.ledger.book, m.prices(k + 1));
      start > 0.0 ==>
        if equity <= Times(start, 1.0 - c.limits.dailyLossLimitPct.value) then
          ProcessSignal(c, now, m, k, sig).log == []
        else
          ProcessSignal(c, now, m, k, sig) == ProcessSignal(WithoutGate(c), now, m, k, sig)
  {
    hide Run, PositionsValue, Times, Submit, DailyLossHit;
    var now := Run(c, d, st, past + [morning] + rest).desk;
    var equity := now.ledger.cash + PositionsValue(now.ledger.book, m.prices(k + 1));
    BaselineIsMorningEquity(c, d, st, past, morning, rest);
    DailyLossIsAnAmount(c.limits.dailyLossLimitPct, equity, now.baseline);
    if !DailyLossHit(c.limits.dailyLossLimitPct, equity, now.baseline) {
      OpenGate(c, now, m, k, sig);
    }
    hide OrderValue, Lots;
  }

  lemma {:induction false} UngatedInTurn(p: Setup, d: Desk, k: nat, stages: seq<Stage>)
    requires d.baseline == None && forall i | 0 <= i < |stages| :: stages[i] != Baseline
    ensures InTurn(p, d, k, stages) == InTurn(p.(config := WithoutGate(p.config)), d, k, stages)
    ensures InTurn(p, d, k, stages).desk.baseline == None
  {
    if stages != [] {
      var init, stage := stages[..|stages| - 1], stages[|stages| - 1];
      UngatedInTurn(p, d, k, init);
      var before := InTurn(p, d, k, init);
      var call := CallOf(p, before.moment, stage);
      if call.Some? {
        UngatedCall(p.config, before.desk, call.value);
        CallKeepsBaseline(p.config, before.desk, call.value);
      }
      hide Call;
    }
  }

  lemma UngatedCall(c: Config, d: Desk, ev: Event)
    requires d.baseline == None
    ensures Call(c, d, ev) == Call(WithoutGate(c), d, ev)
  {
    hide ProcessSignal, GetAccount, SubmitAll, CheckExits;
    if ev.OnSignal? {
      OpenGateWithoutBaseline(c, d, ev.m, ev.k, ev.sig);
    }
  }

  lemma OpenGateWithoutBaseline(c: Config, d: Desk, m: Market, k: nat, sig: Signal)
    requires d.baseline == None
    ensures ProcessSignal(c, d, m, k, sig) == ProcessSignal(WithoutGate(c), d, m, k, sig)
  {
    hide ProcessSignal, GetAccount;
    OpenGate(c, d, m, k, sig);
  }

  /** The limit is meant to be enforced all day, but only the morning job is under it: the others begin with a restart
      and set no baseline, so they do what they would do without a limit, whatever has been lost since the morning. */
  lemma OnlyMorningsAreLimited(p: Setup, r: Ledger, k: nat, watchlist: seq<Symbol>, job: Job)
    requires job != Morning
    ensures JobRound(p, Desk(r, None), k, watchlist, job)
         == JobRound(p.(config := WithoutGate(p.config)), Desk(r, None), k, watchlist, job)
  {
    hide JobRound, InTurn;
    JobIsItsStages(p, Desk(r, None), k, watchlist, job);
    JobIsItsStages(p.(config := WithoutGate(p.config)), Desk(r, None), k, watchlist, job);
    UngatedInTurn(p, Desk(r, None), k, Stages(watchlist, job));
  }
}
