/** The execution engine as the source runs it, call by call, against the step functions of `Trading`. */
module Engines {
  import opened Brokers
  import opened Domain
  import opened Ledgers
  import opened Portfolios
  import opened Repositories
  import opened Risk
  import opened RiskManagers
  import opened Stores
  import T = Trading
  import opened Trading

  class ExecutionEngine {
    const broker: PaperBroker
    const provider: MarketData
    const risk: RiskManager
    const repository: SqlTradeRepository?
    const strategyName: string
    var dailyStartEquity: Option<real>

    constructor (broker: PaperBroker, provider: MarketData, risk: RiskManager, repository: SqlTradeRepository?,
                 strategyName: string)
      requires broker.provider == provider && broker.portfolio.Valid() && (repository != null ==> repository.Valid())
      ensures Valid() && this.broker == broker && this.provider == provider && this.risk == risk
      ensures this.repository == repository && this.strategyName == strategyName && dailyStartEquity == None
    {
      this.broker, this.provider, this.risk := broker, provider, risk;
      this.repository, this.strategyName, dailyStartEquity := repository, strategyName, None;
    }

    ghost predicate Valid()
      reads this, broker.portfolio, repository
    {
      broker.provider == provider && broker.portfolio.Valid() && (repository != null ==> repository.Valid())
    }

    function Config(): T.Config {
      T.Config(risk.limits, Terms(broker.commission, strategyName, repository != null))
    }

    function View(): Desk
      reads this, broker.portfolio, broker.portfolio.positions.Values
    {
      Desk(broker.portfolio.View(), dailyStartEquity)
    }

    /** This call did exactly what a step says, to the account, the clock and the database. */
    twostate predicate Performed(step: Step)
      reads this, broker.portfolio, broker.portfolio.positions.Values, provider, repository
    {
      && Valid() && View() == step.desk && provider.moment == step.moment
      && (repository != null ==> repository.View() == Persist(old(repository.View()), strategyName, step.log))
    }

    method StartNewTradingDay() returns (raised: bool)
      requires Valid()
      modifies this, provider`moment
      ensures var step := T.StartNewTradingDay(old(View()), provider.Market(), old(provider.moment));
        Performed(step) && raised == step.raised
    {
      hide GetAccount, Persist, Held;
      if repository != null {
        PersistNothing(repository.View(), strategyName);
      }
      var account := broker.GetAccount();
      if account.None? {
        return true;
      }
      dailyStartEquity := Some(account.value.Equity());
      return false;
    }

    /** Saves a fill and the account after it; raises where the account cannot be marked to market. */
    method Record(f: Fill, tag: string) returns (raised: bool)
      requires Valid() && repository != null && (f.side.Buy? ==> f.quantity > 0.0)
      modifies provider`moment, repository
      ensures Valid() && View() == old(View()) && provider.moment == old(provider.moment) + 1
      ensures var account := GetAccount(View().ledger, provider.Market(), old(provider.moment));
        && raised == account.None?
        && repository.View() == SaveEntry(old(repository.View()), strategyName, Entry(f, tag, account))
    {
      hide UpsertPosition, GetAccount;
      var ok := repository.SaveFill(f, tag);
      assert ok;
      var account := broker.GetAccount();
      if account.None? {
        return true;
      }
      repository.SaveAccountSnapshot(account.value, strategyName);
      return false;
    }

    /** Broker failures are swallowed, persistence failures are not. */
    method Submit(order: Order) returns (fill: Option<Fill>, raised: bool)
      requires Valid() && (order.side.Buy? ==> order.quantity > 0.0)
      modifies this, broker.portfolio, broker.portfolio.positions.Values, provider`moment, repository
      ensures forall p | p in broker.portfolio.positions.Values ::
                p in old(broker.portfolio.positions.Values) || fresh(p)
      ensures var step := T.Submit(Config().terms, old(View()), provider.Market(), old(provider.moment), order);
        && Performed(step) && raised == step.raised
        && (!raised ==> fill == if step.log == [] then None else Some(step.log[0].fill))
    {
      hide ApplyFill, SaveEntry, GetAccount, Persist;
      var ticket := new Ticket(order);
      fill := broker.SubmitOrder(ticket);
      raised := false;
      if repository != null {
        PersistNothing(repository.View(), strategyName);
      }
      if fill.Some? && repository != null {
        ghost var st := repository.View();
        raised := Record(fill.value, order.strategyName);
        PersistOne(st, strategyName, Entry(fill.value, order.strategyName,
                                           GetAccount(View().ledger, provider.Market(), old(provider.moment) + 1)));
      }
    }

    /** The risk manager's decision on a signal, or `None` where the provider raises. */
    method Decide(sig: Signal) returns (decision: Option<Decision>)
      requires Valid() && !sig.kind.HOLD?
      modifies provider`moment
      ensures Valid() && View() == old(View())
      ensures var m, k := provider.Market(), old(provider.moment);
        && (sig.symbol !in m.prices(k) ==> decision == None && provider.moment == k + 1)
        && (sig.symbol in m.prices(k) ==>
              var account := GetAccount(View().ledger, m, k + 1);
              && provider.moment == k + 2
              && (account.None? ==> decision == None)
              && (account.Some? ==>
                    decision == Some(EvaluateSignal(risk.limits, sig, m.prices(k)[sig.symbol], account.value,
                                                    View().ledger.book, View().baseline))))
      ensures decision.Some? && decision.value.Approved? && decision.value.order.side.Buy? ==>
                decision.value.order.quantity > 0.0
    {
      hide GetAccount, EvaluateSignal;
      var price := provider.GetLatestPrice(sig.symbol);
      provider.NextMoment();
      if price.None? {
        return None;
      }
      var account := broker.GetAccount();
      if account.None? {
        return None;
      }
      ghost var book := broker.portfolio.View().book;
      var positions := broker.GetPositions();
      var d := risk.EvaluateSignal(sig, price.value, account.value, positions, dailyStartEquity, book);
      ApprovedBuysAreLong(risk.limits, sig, price.value, account.value, book, dailyStartEquity);
      return Some(d);
    }

    method ProcessSignal(sig: Signal) returns (fill: Option<Fill>, raised: bool)
      requires Valid()
      modifies this, broker.portfolio, broker.portfolio.positions.Values, provider`moment, repository
      ensures forall p | p in broker.portfolio.positions.Values ::
                p in old(broker.portfolio.positions.Values) || fresh(p)
      ensures var step := T.ProcessSignal(Config(), old(View()), provider.Market(), old(provider.moment), sig);
        && Performed(step) && raised == step.raised
        && (!raised ==> fill == if step.log == [] then None else Some(step.log[0].fill))
    {
      hide GetAccount, EvaluateSignal, T.Submit;
      fill, raised := None, false;
      if repository != null {
        PersistNothing(repository.View(), strategyName);
      }
      if sig.kind.HOLD? {
        return;
      }
      var decision := Decide(sig);
      if decision.None? {
        raised := true;
        return;
      }
      if decision.value.Approved? {
        fill, raised := Submit(decision.value.order);
      }
    }

    /** The orders that close every position outside its band, or `None` where the provider raises. */
    method ExitOrders() returns (orders: Option<seq<Order>>)
      requires Valid()
      modifies provider`moment
      ensures Valid() && View() == old(View()) && provider.moment == old(provider.moment) + 1
      ensures var b, prices := View().ledger.book, provider.Market().prices(old(provider.moment));
        orders == if b.held.Keys <= prices.Keys then
                    Some(CheckExits(risk.limits.stopLossPct, risk.limits.takeProfitPct, b, prices))
                  else None
      ensures orders.Some? ==> forall i | 0 <= i < |orders.value| :: orders.value[i].side.Sell?
    {
      ghost var all, book := provider.Market().prices(provider.moment), View().ledger.book;
      assert book.Valid();
      hide Held, ExitsAmong;
      var positions := broker.GetPositions();
      var prices := broker.PricesOfHeld();
      provider.NextMoment();
      if prices.None? {
        return None;
      }
      var exits := risk.CheckExits(positions, prices.value, book);
      SameExits(risk.limits.stopLossPct, risk.limits.takeProfitPct, book, prices.value, all, |book.order|);
      ExitsOnlySell(risk.limits.stopLossPct, risk.limits.takeProfitPct, book, prices.value, |book.order|);
      return Some(exits);
    }

    /** `[self._submit(order) for order in orders]`, cut short by an exception. */
    method SubmitOrders(orders: seq<Order>) returns (fills: seq<Fill>, raised: bool)
      requires Valid() && forall i | 0 <= i < |orders| :: orders[i].side.Sell?
      modifies this, broker.portfolio, broker.portfolio.positions.Values, provider`moment, repository
      ensures forall p | p in broker.portfolio.positions.Values ::
                p in old(broker.portfolio.positions.Values) || fresh(p)
      ensures var step := SubmitAll(Config().terms, old(View()), provider.Market(), old(provider.moment), orders);
        && Performed(step) && raised == step.raised && (!raised ==> fills == Fills(step.log))
    {
      hide T.Submit, GetAccount, Persist, SaveEntry, Held, Fills;
      fills, raised := [], false;
      ghost var t, d, m, k := Config().terms, View(), provider.Market(), provider.moment;
      SubmitNothing(t, d, m, k);
      if repository != null {
        PersistNothing(repository.View(), strategyName);
      }
      for i := 0 to |orders|
        invariant forall p | p in broker.portfolio.positions.Values ::
          p in old(broker.portfolio.positions.Values) || fresh(p)
        invariant Performed(SubmitAll(t, d, m, k, orders[..i])) && !SubmitAll(t, d, m, k, orders[..i]).raised
        invariant fills == Fills(SubmitAll(t, d, m, k, orders[..i]).log)
      {
        ghost var before := SubmitAll(t, d, m, k, orders[..i]);
        var fill, failed := Submit(orders[i]);
        ghost var last := T.Submit(t, before.desk, m, before.moment, orders[i]);
        SubmitNext(t, d, m, k, orders, i);
        if repository != null {
          PersistAppend(old(repository.View()), strategyName, before.log, last.log);
        }
        if failed {
          RaisedSticks(t, d, m, k, orders, i + 1);
          raised := true;
          return;
        }
        if fill.Some? {
          fills := fills + [fill.value];
        }
      }
      assert orders[..|orders|] == orders;
    }

    method RunExitChecks() returns (fills: seq<Fill>, raised: bool)
      requires Valid()
      modifies this, broker.portfolio, broker.portfolio.positions.Values, provider`moment, repository
      ensures forall p | p in broker.portfolio.positions.Values ::
                p in old(broker.portfolio.positions.Values) || fresh(p)
      ensures var step := T.RunExitChecks(Config(), old(View()), provider.Market(), old(provider.moment));
        && Performed(step) && raised == step.raised && (!raised ==> fills == Fills(step.log))
    {
      hide SubmitAll, CheckExits, SaveEntry, Held, Fills;
      fills, raised := [], true;
      if repository != null {
        PersistNothing(repository.View(), strategyName);
      }
      var orders := ExitOrders();
      if orders.Some? {
        fills, raised := SubmitOrders(orders.value);
      }
    }
  }

  lemma PersistNothing(st: Store, name: string)
    ensures Persist(st, name, []) == st
  {
  }

  lemma PersistOne(st: Store, name: string, e: Entry)
    ensures Persist(st, name, [e]) == SaveEntry(st, name, e)
  {
    PersistSnoc(st, name, [], e);
    assert [] + [e] == [e];
  }

  lemma ApprovedBuysAreLong(limits: Limits, sig: Signal, price: real, a: Account, b: Book, baseline: Option<real>)
    ensures var d := EvaluateSignal(limits, sig, price, a, b, baseline);
      d.Approved? && d.order.side.Buy? ==> d.order.quantity > 0.0
  {
    hide OrderValue, DailyLossHit, Lots;
  }

  lemma {:induction false} SameExits(stop: Option<real>, target: Option<real>, b: Book, some: map<Symbol, real>,
                                     all: map<Symbol, real>, n: nat)
    requires n <= |b.order| && forall s | s in b.order :: s in some
    requires forall s | s in some :: s in all && some[s] == all[s]
    ensures ExitsAmong(stop, target, b, some, n) == ExitsAmong(stop, target, b, all, n)
  {
    if n > 0 {
      SameExits(stop, target, b, some, all, n - 1);
      hide ExitOrder;
    }
  }

  lemma {:induction false} ExitsOnlySell(stop: Option<real>, target: Option<real>, b: Book, prices: map<Symbol, real>,
                                         n: nat)
    requires n <= |b.order|
    ensures forall i | 0 <= i < |ExitsAmong(stop, target, b, prices, n)| ::
              ExitsAmong(stop, target, b, prices, n)[i].side.Sell?
  {
    if n > 0 {
      ExitsOnlySell(stop, target, b, prices, n - 1);
      hide HitsStop, HitsTarget;
    }
  }

  lemma SubmitNothing(t: Terms, d: Desk, m: Market, k: nat)
    ensures SubmitAll(t, d, m, k, []) == Step(d, [], k, false) && Fills([]) == []
  {
  }

  lemma SubmitNext(t: Terms, d: Desk, m: Market, k: nat, orders: seq<Order>, i: nat)
    requires i < |orders| && !SubmitAll(t, d, m, k, orders[..i]).raised
    ensures var before := SubmitAll(t, d, m, k, orders[..i]);
      var last := T.Submit(t, before.desk, m, before.moment, orders[i]);
      && SubmitAll(t, d, m, k, orders[..i + 1]) == last.(log := before.log + last.log)
      && |last.log| <= 1
      && Fills(before.log + last.log) == Fills(before.log) + (if last.log == [] then [] else [last.log[0].fill])
  {
    hide ApplyFill, GetAccount;
    assert orders[..i + 1][..i] == orders[..i];
  }

  lemma {:induction false} RaisedSticks(t: Terms, d: Desk, m: Market, k: nat, orders: seq<Order>, n: nat)
    requires n <= |orders| && SubmitAll(t, d, m, k, orders[..n]).raised
    ensures SubmitAll(t, d, m, k, orders) == SubmitAll(t, d, m, k, orders[..n])
    decreases |orders| - n
  {
    if n < |orders| {
      assert orders[..n + 1][..n] == orders[..n];
      RaisedSticks(t, d, m, k, orders, n + 1);
    } else {
      assert orders[..n] == orders;
    }
  }
}
