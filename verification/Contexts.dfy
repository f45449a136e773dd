/** The live pipeline of one strategy: rehydration from the database, the scan, and the scheduled jobs, against the
    functions of `Jobs`. */
module Contexts {
  import opened Backtests
  import opened Brokers
  import opened Domain
  import opened Engines
  import J = Jobs
  import opened Jobs
  import opened Ledgers
  import opened Portfolios
  import opened Repositories
  import opened Risk
  import opened RiskManagers
  import opened Runs
  import opened Safety
  import opened Stores
  import opened Trading

  class TradingContext {
    const engine: ExecutionEngine
    const strategy: (Symbol, Window) -> SignalType
    const watchlist: seq<Symbol>

    constructor (engine: ExecutionEngine, strategy: (Symbol, Window) -> SignalType, watchlist: seq<Symbol>)
      requires engine.Valid() && engine.repository != null
      ensures Valid() && this.engine == engine && this.strategy == strategy && this.watchlist == watchlist
    {
      this.engine, this.strategy, this.watchlist := engine, strategy, watchlist;
    }

    ghost predicate Valid()
      reads engine, engine.broker.portfolio, engine.repository
    {
      engine.Valid() && engine.repository != null
    }

    ghost function Setup(): Setup
      reads engine.provider
    {
      J.Setup(engine.Config(), engine.provider.Market(), engine.provider.Bars(), strategy)
    }

    /** The account, the batch counter and the database are where the calls of a round leave them. */
    twostate predicate Did(r: Round)
      requires engine.repository != null
      reads engine, engine.broker.portfolio, engine.broker.portfolio.positions.Values, engine.repository,
            engine.provider
    {
      && Valid() && engine.View() == r.desk && engine.provider.moment == r.moment
      && engine.repository.View()
         == Run(engine.Config(), old(engine.View()), old(engine.repository.View()), r.evs).store
    }

    /** One symbol of the scan: skipped where its history raises or is empty, else its signal is processed. */
    method ScanSymbol(symbol: Symbol) returns (sig: Option<Signal>, raised: bool)
      requires Valid()
      modifies engine, engine.broker.portfolio, engine.broker.portfolio.positions.Values, engine.provider`moment,
               engine.repository
      ensures forall p | p in engine.broker.portfolio.positions.Values ::
                p in old(engine.broker.portfolio.positions.Values) || fresh(p)
      ensures sig == SignalOn(Setup(), old(engine.provider.moment), symbol)
      ensures var round := J.ScanSymbol(Setup(), old(engine.View()), old(engine.provider.moment), symbol);
        Did(round) && raised == round.raised
    {
      hide Trading.ProcessSignal, Persist, GetAccount, Held, Run;
      RunNothing(engine.Config(), engine.View(), engine.repository.View());
      var data := engine.provider.GetHistory(symbol);
      engine.provider.NextMoment();
      sig, raised := None, false;
      if data.Some? && data.value != [] {
        var signal := Signal(symbol, strategy(symbol, data.value), engine.strategyName);
        RunOne(engine.Config(), engine.View(), engine.repository.View(),
               OnSignal(engine.provider.Market(), engine.provider.moment, signal));
        var fill;
        fill, raised := engine.ProcessSignal(signal);
        sig := Some(signal);
      }
    }

    /** Forced exits first, then one signal for each symbol of the watchlist whose history the provider has. */
    method RunTradingScan() returns (signals: seq<Signal>, raised: bool)
      requires Valid()
      modifies engine, engine.broker.portfolio, engine.broker.portfolio.positions.Values, engine.provider`moment,
               engine.repository
      ensures forall p | p in engine.broker.portfolio.positions.Values ::
                p in old(engine.broker.portfolio.positions.Values) || fresh(p)
      ensures var round := TradingScan(Setup(), old(engine.View()), old(engine.provider.moment), watchlist);
        Did(round) && raised == round.raised && signals == SignalsOf(round.evs)
    {
      hide Trading.RunExitChecks, Persist, Held, Run, J.ScanSymbol, SignalsOf;
      ghost var p, d, st, k := Setup(), engine.View(), engine.repository.View(), engine.provider.moment;
      ghost var exits := Once(p, d, ExitChecks(p.market, k));
      RunOne(p.config, d, st, ExitChecks(p.market, k));
      ExitsHaveNoSignal(p.market, k);
      var fills;
      fills, raised := engine.RunExitChecks();
      signals := [];
      if raised {
        return;
      }
      ScanStarts(p, d, st, exits);
      for i := 0 to |watchlist|
        invariant Valid() && forall q | q in engine.broker.portfolio.positions.Values ::
          q in old(engine.broker.portfolio.positions.Values) || fresh(q)
        invariant var round := Joined(exits, ScanSymbols(p, exits.desk, exits.moment, watchlist[..i]));
          && engine.View() == round.desk && engine.provider.moment == round.moment && !round.raised
          && engine.repository.View() == Run(p.config, d, st, round.evs).store
          && Run(p.config, d, st, round.evs).desk == round.desk
          && signals == SignalsOf(round.evs)
      {
        ghost var scanned := ScanSymbols(p, exits.desk, exits.moment, watchlist[..i]);
        ghost var more := J.ScanSymbol(p, scanned.desk, scanned.moment, watchlist[i]);
        var sig;
        sig, raised := ScanSymbol(watchlist[i]);
        ScanGoesOn(p, d, st, exits, watchlist, i);
        if sig.Some? {
          signals := signals + [sig.value];
        }
        if raised {
          ScanEnds(p, exits.desk, exits.moment, watchlist, i + 1);
          return;
        }
      }
      assert watchlist[..|watchlist|] == watchlist;
    }

    /** `_save_snapshot`. */
    method SaveSnapshot() returns (raised: bool)
      requires Valid()
      modifies engine.provider`moment, engine.repository
      ensures var snapshot := SnapshotNow(Setup().market, old(engine.provider.moment));
        var round := Once(Setup(), old(engine.View()), snapshot);
        Did(round) && raised == round.raised
    {
      hide GetAccount;
      RunOne(engine.Config(), engine.View(), engine.repository.View(),
             SnapshotNow(engine.provider.Market(), engine.provider.moment));
      var account := engine.broker.GetAccount();
      raised := account.None?;
      if account.Some? {
        engine.repository.SaveAccountSnapshot(account.value, engine.strategyName);
      }
    }

    /** This context's part of the evening job. */
    method EveningRound() returns (raised: bool)
      requires Valid()
      modifies engine, engine.broker.portfolio, engine.broker.portfolio.positions.Values, engine.provider`moment,
               engine.repository
      ensures var round := J.EveningRound(Setup(), old(engine.View()), old(engine.provider.moment));
        Did(round) && raised == round.raised
    {
      hide Trading.RunExitChecks, Run, Persist, Held, GetAccount;
      ghost var p, d, st, k := Setup(), engine.View(), engine.repository.View(), engine.provider.moment;
      ghost var exits := ExitChecks(p.market, k);
      RunOne(p.config, d, st, exits);
      var fills;
      fills, raised := engine.RunExitChecks();
      if !raised {
        ghost var k1 := engine.provider.moment;
        raised := SaveSnapshot();
        RunAppend(p.config, d, st, [exits], [SnapshotNow(p.market, k1)]);
      }
    }

    /** This context's part of the morning job or, without its first call, of the hourly one; an exception skips the
        rest. */
    method ScanRound(startsDay: bool) returns (raised: bool)
      requires Valid()
      modifies engine, engine.broker.portfolio, engine.broker.portfolio.positions.Values, engine.provider`moment,
               engine.repository
      ensures var round := J.ScanRound(Setup(), old(engine.View()), old(engine.provider.moment), watchlist, startsDay);
        Did(round) && raised == round.raised
    {
      hide Trading.StartNewTradingDay, Run, Persist, Held, TradingScan, GetAccount;
      ghost var p, d, st, k := Setup(), engine.View(), engine.repository.View(), engine.provider.moment;
      ghost var morning := if startsDay then Once(p, d, NewDay(p.market, k)) else Nothing(d, k);
      raised := false;
      RunNothing(p.config, d, st);
      RunOne(p.config, d, st, NewDay(p.market, k));
      if startsDay {
        raised := engine.StartNewTradingDay();
      }
      if raised {
        return;
      }
      var signals;
      signals, raised := RunTradingScan();
      ghost var scan := TradingScan(p, morning.desk, morning.moment, watchlist);
      TradingScanRuns(p, morning.desk, morning.moment, watchlist);
      RunAppend(p.config, d, st, morning.evs, scan.evs);
      if raised {
        return;
      }
      ghost var k1 := engine.provider.moment;
      raised := SaveSnapshot();
      RunAppend(p.config, d, st, morning.evs + scan.evs, [SnapshotNow(p.market, k1)]);
    }

    method Perform(job: Job) returns (raised: bool)
      requires Valid()
      modifies engine, engine.broker.portfolio, engine.broker.portfolio.positions.Values, engine.provider`moment,
               engine.repository
      ensures var round := JobRound(Setup(), old(engine.View()), old(engine.provider.moment), watchlist, job);
        Did(round) && raised == round.raised
      ensures (old(Safe(engine.Config(), engine.View().ledger)) && engine.broker.commission >= 0.0
               && NonNegative(engine.provider.Market())) ==> Safe(engine.Config(), engine.View().ledger)
    {
      hide J.ScanRound, J.EveningRound, Run, Safe, NonNegative, Held;
      ghost var p, d, st, k := Setup(), engine.View(), engine.repository.View(), engine.provider.moment;
      if Safe(p.config, d.ledger) && engine.broker.commission >= 0.0 && NonNegative(p.market) {
        JobKeepsSafe(p, 0.0, d, st, k, watchlist, job);
      }
      if job.Evening? {
        raised := EveningRound();
      } else {
        raised := ScanRound(job.Morning?);
      }
    }
  }

  lemma ExitsHaveNoSignal(m: Market, k: nat)
    ensures SignalsOf([ExitChecks(m, k)]) == []
  {
  }

  lemma ScanStarts(p: Setup, d: Desk, st: Store, exits: Round)
    requires !exits.raised && |exits.evs| == 1 && exits.evs[0].ExitChecks?
    requires exits == Once(p, d, exits.evs[0])
    ensures Joined(exits, ScanSymbols(p, exits.desk, exits.moment, [])) == exits
    ensures Run(p.config, d, st, exits.evs).desk == exits.desk
  {
    RunOne(p.config, d, st, exits.evs[0]);
    assert exits.evs == [exits.evs[0]];
    assert exits.evs + [] == exits.evs;
  }

  /** One more symbol of the watchlist extends the round, its run and its signals. */
  lemma ScanGoesOn(p: Setup, d: Desk, st: Store, exits: Round, watchlist: seq<Symbol>, i: nat)
    requires i < |watchlist|
    requires var before := Joined(exits, ScanSymbols(p, exits.desk, exits.moment, watchlist[..i]));
      !before.raised && Run(p.config, d, st, before.evs).desk == before.desk
    ensures var scanned := ScanSymbols(p, exits.desk, exits.moment, watchlist[..i]);
      var before, more := Joined(exits, scanned), J.ScanSymbol(p, scanned.desk, scanned.moment, watchlist[i]);
      var after := Joined(exits, ScanSymbols(p, exits.desk, exits.moment, watchlist[..i + 1]));
      && after == Joined(before, more)
      && Run(p.config, d, st, after.evs).desk == after.desk
      && Run(p.config, d, st, after.evs).store
         == Run(p.config, before.desk, Run(p.config, d, st, before.evs).store, more.evs).store
      && SignalsOf(after.evs) == SignalsOf(before.evs)
           + (if SignalOn(p, scanned.moment, watchlist[i]).Some? then [SignalOn(p, scanned.moment, watchlist[i]).value]
              else [])
  {
    hide Run, SignalsOf, SignalOn, J.ScanSymbol, Call;
    var scanned := ScanSymbols(p, exits.desk, exits.moment, watchlist[..i]);
    var before, more := Joined(exits, scanned), J.ScanSymbol(p, scanned.desk, scanned.moment, watchlist[i]);
    assert watchlist[..i + 1][..i] == watchlist[..i];
    assert exits.evs + (scanned.evs + more.evs) == before.evs + more.evs;
    RunAppend(p.config, d, st, before.evs, more.evs);
    ScanSymbolRuns(p, scanned.desk, scanned.moment, watchlist[i]);
    SignalsAppend(before.evs, more.evs);
    SymbolSignals(p, scanned.desk, scanned.moment, watchlist[i]);
  }

  lemma SymbolSignals(p: Setup, d: Desk, k: nat, s: Symbol)
    ensures SignalsOf(J.ScanSymbol(p, d, k, s).evs)
         == if SignalOn(p, k, s).Some? then [SignalOn(p, k, s).value] else []
  {
    hide Call, SignalOn;
    if SignalOn(p, k, s).Some? {
      SignalsSnoc([], OnSignal(p.market, k + 1, SignalOn(p, k, s).value));
      assert [] + J.ScanSymbol(p, d, k, s).evs == J.ScanSymbol(p, d, k, s).evs;
    }
  }

  lemma {:induction false} ScanEnds(p: Setup, d: Desk, k: nat, symbols: seq<Symbol>, n: nat)
    requires n <= |symbols| && ScanSymbols(p, d, k, symbols[..n]).raised
    ensures ScanSymbols(p, d, k, symbols) == ScanSymbols(p, d, k, symbols[..n])
    decreases |symbols| - n
  {
    hide J.ScanSymbol;
    if n < |symbols| {
      assert symbols[..n + 1][..n] == symbols[..n];
      ScanEnds(p, d, k, symbols, n + 1);
    } else {
      assert symbols[..n] == symbols;
    }
  }

  /** `build_trading_context`: new objects; the account resumes with the latest cash stored under the strategy's name,
      or with the initial capital, and with the positions stored under that name. */
  method BuildTradingContext(provider: MarketData, repository: SqlTradeRepository, limits: Limits, commission: real,
                             initialCapital: real, strategyName: string, strategy: (Symbol, Window) -> SignalType,
                             watchlist: seq<Symbol>)
    returns (context: TradingContext)
    requires repository.Valid()
    ensures fresh(context) && fresh(context.engine) && fresh(context.engine.broker)
    ensures fresh(context.engine.broker.portfolio)
    ensures forall p | p in context.engine.broker.portfolio.positions.Values :: fresh(p)
    ensures context.Valid() && context.engine.repository == repository && context.engine.provider == provider
    ensures context.engine.Config() == Config(limits, Terms(commission, strategyName, true))
    ensures context.engine.View().baseline == None
    ensures RebuiltFrom(repository.View(), strategyName, initialCapital, context.engine.View().ledger)
    ensures context.watchlist == watchlist && context.strategy == strategy
  {
    hide RebuiltFrom, Held;
    var portfolio := Rehydrate(repository, initialCapital, strategyName);
    var broker := new PaperBroker(portfolio, provider, commission);
    var risk := new RiskManager(limits);
    var engine := new ExecutionEngine(broker, provider, risk, repository, strategyName);
    context := new TradingContext(engine, strategy, watchlist);
  }

  method Rehydrate(repository: SqlTradeRepository, initialCapital: real, strategyName: string)
    returns (portfolio: Portfolio)
    ensures portfolio.Valid() && fresh(portfolio) && forall p | p in portfolio.positions.Values :: fresh(p)
    ensures RebuiltFrom(repository.View(), strategyName, initialCapital, portfolio.View())
  {
    hide MayResumeWith, OpenPositions, Lists, Held;
    var cash := repository.LatestCashBalance(strategyName, initialCapital);
    portfolio := new Portfolio(if cash.Some? then cash.value else initialCapital, false);
    ghost var book;
    var list;
    list, book := repository.ListOpenPositions(strategyName);
    portfolio.Adopt(list, book);
  }

  /** A scheduled job for one strategy: the context is built from the database, then its round is performed. What the
      database holds afterwards is what the round stored, starting from the rebuilt account. */
  method RunJob(provider: MarketData, repository: SqlTradeRepository, limits: Limits, commission: real,
                initialCapital: real, strategyName: string, strategy: (Symbol, Window) -> SignalType,
                watchlist: seq<Symbol>, job: Job)
    returns (raised: bool, ghost rebuilt: Ledger)
    requires repository.Valid()
    modifies provider`moment, repository
    ensures repository.Valid()
    ensures RebuiltFrom(old(repository.View()), strategyName, initialCapital, rebuilt)
    ensures var c := Config(limits, Terms(commission, strategyName, true));
      var round := JobRound(J.Setup(c, provider.Market(), provider.Bars(), strategy), Desk(rebuilt, None),
                            old(provider.moment), watchlist, job);
      && raised == round.raised && provider.moment == round.moment
      && repository.View() == Run(c, Desk(rebuilt, None), old(repository.View()), round.evs).store
  {
    hide RebuiltFrom, Held, JobRound, Run, Safe, NonNegative;
    var context := BuildTradingContext(provider, repository, limits, commission, initialCapital, strategyName, strategy,
                                       watchlist);
    rebuilt := context.engine.View().ledger;
    raised := context.Perform(job);
  }
}
