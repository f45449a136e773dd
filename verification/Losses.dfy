/** What a restart right after a call would lose, foretold from what the call is given: the account, the signal, and the
    quotes of the batches the call is going to ask for. */
module Losses {
  import opened Arithmetic
  import opened Discipline
  import opened Divergence
  import opened Domain
  import opened Ledgers
  import opened Restart
  import opened Risk
  import opened Runs
  import opened Stores
  import opened Trading

  /** Forced exits are asked for one after another, a batch each as long as none of them fills: one of them does if and
      only if its symbol has a quote in its batch. */
  ghost predicate SomeExitQuoted(m: Market, k: nat, orders: seq<Order>) {
    exists i :: 0 <= i < |orders| && ExitQuoted(m, k, orders, i)
  }

  ghost predicate ExitQuoted(m: Market, k: nat, orders: seq<Order>, i: nat)
    requires i < |orders|
  {
    orders[i].symbol in m.prices(k + i)
  }

  lemma SomeExitQuotedSnoc(m: Market, k: nat, orders: seq<Order>)
    requires orders != []
    ensures SomeExitQuoted(m, k, orders)
       <==> SomeExitQuoted(m, k, orders[..|orders| - 1]) || ExitQuoted(m, k, orders, |orders| - 1)
  {
    var init := orders[..|orders| - 1];
    forall i | 0 <= i < |init| ensures ExitQuoted(m, k, init, i) <==> ExitQuoted(m, k, orders, i) {
    }
  }

  lemma ExitAttempt(c: Config, d: Desk, m: Market, k: nat, o: Order)
    requires d.ledger.book.Valid() && Issuable(c, d.ledger, o) && o.side.Sell?
    ensures var step := Submit(c.terms, d, m, k, o);
      && (o.symbol in m.prices(k) ==> |step.log| == 1 && step.log[0].tag == o.strategyName)
      && (o.symbol !in m.prices(k) ==> step == Step(d, [], k + 1, false))
  {
    if o.symbol in m.prices(k) {
      SoldOut(d.ledger, FillOf(c.terms, m, k, o));
    }
    hide ApplyFill, Notional;
  }

  lemma {:induction false} ExitsFillIff(c: Config, d: Desk, m: Market, k: nat, orders: seq<Order>)
    requires d.ledger.book.Valid() && SellsOut(d.ledger.book, orders)
    ensures var step := SubmitAll(c.terms, d, m, k, orders);
      && (SomeExitQuoted(m, k, orders) ==> step.log != [] && IsRiskTag(step.log[0].tag))
      && (!SomeExitQuoted(m, k, orders) ==> step == Step(d, [], k + |orders|, false))
  {
    hide Submit, Issuable, Ordered, Orderly, IsRiskTag;
    if orders != [] {
      var init, o := orders[..|orders| - 1], orders[|orders| - 1];
      var before := SubmitAll(c.terms, d, m, k, init);
      LastExitIsIssuable(c, d, m, k, orders);
      assert IsRiskTag(o.strategyName);
      hide SellsOut, SomeExitQuoted;
      SomeExitQuotedSnoc(m, k, orders);
      ExitsFillIff(c, d, m, k, init);
      if before.log == [] {
        ExitAttempt(c, d, m, k + |init|, o);
        assert [] + Submit(c.terms, d, m, k + |init|, o).log == Submit(c.terms, d, m, k + |init|, o).log;
      }
    }
  }

  /** An exit check from a synced state, in any market: a restart right after it loses something if and only if its
      first quotes are complete and, at them, some position is to be forced out whose symbol still has a quote when its
      turn comes. A check whose first quotes are incomplete raises at once, and an exit without a quote is swallowed. */
  lemma ExitChecksLoseNothingIff(c: Config, initial: real, d: Desk, st: Store, m: Market, k: nat)
    requires c.terms.persist && !IsRiskTag(c.terms.strategyName) && Synced(c, initial, d, st)
    requires Increasing(Stored(c, d, st, ExitChecks(m, k)).snapshots, c.terms.strategyName)
    ensures var b := d.ledger.book;
      var orders := CheckExits(c.limits.stopLossPct, c.limits.takeProfitPct, b, m.prices(k));
      LosesNothing(c, initial, Call(c, d, ExitChecks(m, k)).desk.ledger, Stored(c, d, st, ExitChecks(m, k)))
      <==> !(b.held.Keys <= m.prices(k).Keys && SomeExitQuoted(m, k + 1, orders))
  {
    hide LosesNothing, Stored, Increasing, InSync, ResumeCash, IsRiskTag, CheckExits, SubmitAll, CashMoved, Ordered,
      Breaches, SomeExitQuoted;
    var ev, b := ExitChecks(m, k), d.ledger.book;
    CallLosesNothingIff(c, initial, d, st, ev);
    if b.held.Keys <= m.prices(k).Keys {
      var orders := CheckExits(c.limits.stopLossPct, c.limits.takeProfitPct, b, m.prices(k));
      CheckExitsByBreach(c.limits.stopLossPct, c.limits.takeProfitPct, b, m.prices(k));
      ExitsFillIff(c, d, m, k + 1, orders);
      assert Call(c, d, ev) == SubmitAll(c.terms, d, m, k + 1, orders);
    }
  }

  /** A held position stands outside its band at these quotes: at most its entry price less the stop, or at least its
      entry price plus the target. */
  ghost predicate SomeBreach(limits: Limits, b: Book, prices: map<Symbol, real>) {
    exists s :: && s in b.held && s in prices && b.held[s].avgEntryPrice > 0.0
                && OutOfBand(limits, b.held[s].avgEntryPrice, prices[s])
  }

  ghost predicate OutOfBand(limits: Limits, entry: real, price: real) {
    || (limits.stopLossPct.Some? && price <= Times(entry, 1.0 - limits.stopLossPct.value))
    || (limits.takeProfitPct.Some? && price >= Times(entry, 1.0 + limits.takeProfitPct.value))
  }

  lemma OrdersIffBreach(limits: Limits, b: Book, prices: map<Symbol, real>)
    requires b.Valid()
    ensures CheckExits(limits.stopLossPct, limits.takeProfitPct, b, prices) != [] <==> SomeBreach(limits, b, prices)
  {
    var orders := CheckExits(limits.stopLossPct, limits.takeProfitPct, b, prices);
    CheckExitsByBreach(limits.stopLossPct, limits.takeProfitPct, b, prices);
    hide CheckExits, Times, ChangePct, SellsOut, TaggedByCause;
    if orders != [] {
      assert Ordered(orders, orders[0].symbol);
    }
    forall s | s in b.held && s in prices
      ensures Breaches(limits.stopLossPct, limits.takeProfitPct, b.held[s], prices[s])
         <==> b.held[s].avgEntryPrice > 0.0 && OutOfBand(limits, b.held[s].avgEntryPrice, prices[s]) {
      StopIsAPrice(limits.stopLossPct, b.held[s], prices[s]);
      TargetIsAPrice(limits.takeProfitPct, b.held[s], prices[s]);
    }
    hide Breaches, OutOfBand;
  }

  /** So while the vendor answers for the held symbols, it loses nothing if and only if no held position stands outside
      its band at the quotes the check begins with. */
  lemma QuotedExitChecksLoseNothingIff(c: Config, initial: real, d: Desk, st: Store, m: Market, k: nat)
    requires c.terms.persist && !IsRiskTag(c.terms.strategyName) && Synced(c, initial, d, st)
    requires Increasing(Stored(c, d, st, ExitChecks(m, k)).snapshots, c.terms.strategyName)
    requires forall j: nat | j > k :: d.ledger.book.held.Keys <= m.prices(j).Keys
    ensures LosesNothing(c, initial, Call(c, d, ExitChecks(m, k)).desk.ledger, Stored(c, d, st, ExitChecks(m, k)))
       <==> !(d.ledger.book.held.Keys <= m.prices(k).Keys && SomeBreach(c.limits, d.ledger.book, m.prices(k)))
  {
    hide LosesNothing, Stored, Increasing, InSync, ResumeCash, IsRiskTag, Call, CheckExits, SomeBreach;
    var orders := CheckExits(c.limits.stopLossPct, c.limits.takeProfitPct, d.ledger.book, m.prices(k));
    ExitChecksLoseNothingIff(c, initial, d, st, m, k);
    OrdersIffBreach(c.limits, d.ledger.book, m.prices(k));
    CheckExitsByBreach(c.limits.stopLossPct, c.limits.takeProfitPct, d.ledger.book, m.prices(k));
    if orders != [] {
      assert d.ledger.book.held.Keys <= m.prices(k + 1).Keys;
      assert ExitQuoted(m, k + 1, orders, 0);
    }
  }

  /** The fill a signal is going to make, if any: every gate of the call, in its order. */
  function SignalFill(c: Config, d: Desk, m: Market, k: nat, sig: Signal): Option<Fill> {
    if sig.kind.HOLD? || sig.symbol !in m.prices(k) || !(d.ledger.book.held.Keys <= m.prices(k + 1).Keys) then None
    else
      var account := Account(m.clock(k + 1), d.ledger.cash, PositionsValue(d.ledger.book, m.prices(k + 1)));
      match EvaluateSignal(c.limits, sig, m.prices(k)[sig.symbol], account, d.ledger.book, d.baseline)
      case Rejected(_) => None
      case Approved(o) =>
        if o.symbol in m.prices(k + 2) && ApplyFill(d.ledger, FillOf(c.terms, m, k + 2, o)).Filled? then
          Some(FillOf(c.terms, m, k + 2, o))
        else None
  }

  /** The symbols held after an opening buy or a closing sell. */
  function HeldAfter(b: Book, f: Fill): set<Symbol> {
    if f.side.Buy? then b.held.Keys + {f.symbol} else b.held.Keys - {f.symbol}
  }

  function CashFlow(f: Fill): real {
    if f.side.Buy? then -(Notional(f) + f.commission) else Notional(f) - f.commission
  }

  lemma SignalFillIsMade(c: Config, d: Desk, m: Market, k: nat, sig: Signal)
    requires c.terms.persist && d.ledger.book.Valid()
    ensures var step, fill := ProcessSignal(c, d, m, k, sig), SignalFill(c, d, m, k, sig);
      && (fill.None? ==> step.log == [])
      && (fill.Some? ==>
            && |step.log| == 1 && step.log[0].fill == fill.value && step.log[0].tag == sig.strategyName
            && After(d.ledger, fill.value).book.held.Keys == HeldAfter(d.ledger.book, fill.value)
            && CashMoved(d.ledger, fill.value) == CashFlow(fill.value)
            && step.raised == !(HeldAfter(d.ledger.book, fill.value) <= m.prices(k + 3).Keys))
  {
    hide OrderValue, DailyLossHit, Lots, PositionsValue, Notional, Profit;
    var fill := SignalFill(c, d, m, k, sig);
    if fill.Some? {
      if fill.value.side.Buy? {
        BoughtIn(d.ledger, fill.value);
      } else {
        SoldOut(d.ledger, fill.value);
      }
      hide ApplyFill;
    }
  }

  /** A signal from a synced state, in any market: a restart right after it loses something if and only if it trades,
      its trade moves cash, and a symbol held afterwards has no quote in the batch that marks the account. */
  lemma SignalLosesNothingIff(c: Config, initial: real, d: Desk, st: Store, m: Market, k: nat, sig: Signal)
    requires c.terms.persist && !IsRiskTag(c.terms.strategyName) && Synced(c, initial, d, st)
    requires sig.strategyName == c.terms.strategyName
    requires Increasing(Stored(c, d, st, OnSignal(m, k, sig)).snapshots, c.terms.strategyName)
    ensures var fill := SignalFill(c, d, m, k, sig);
      LosesNothing(c, initial, Call(c, d, OnSignal(m, k, sig)).desk.ledger, Stored(c, d, st, OnSignal(m, k, sig)))
      <==> !(fill.Some? && CashFlow(fill.value) != 0.0
             && !(HeldAfter(d.ledger.book, fill.value) <= m.prices(k + 3).Keys))
  {
    hide LosesNothing, Stored, Increasing, InSync, ResumeCash, IsRiskTag, ProcessSignal, SignalFill, CashMoved,
      CashFlow, HeldAfter;
    var step := Call(c, d, OnSignal(m, k, sig));
    CallLosesNothingIff(c, initial, d, st, OnSignal(m, k, sig));
    SignalFillIsMade(c, d, m, k, sig);
    if step.log != [] {
      assert step.log[..|step.log| - 1] == [];
      assert End(d.ledger, []) == d.ledger;
    }
  }

  lemma {:induction false} OnlyRecordingRaises(t: Terms, d: Desk, m: Market, k: nat, orders: seq<Order>)
    ensures var step := SubmitAll(t, d, m, k, orders);
      step.raised <==> t.persist && step.log != [] && step.log[|step.log| - 1].snapshot.None?
  {
    if orders != [] {
      var init, o := orders[..|orders| - 1], orders[|orders| - 1];
      var before := SubmitAll(t, d, m, k, init);
      OnlyRecordingRaises(t, d, m, k, init);
      OneSubmitRaises(t, before.desk, m, before.moment, o);
      hide Submit;
    }
  }

  lemma OneSubmitRaises(t: Terms, d: Desk, m: Market, k: nat, o: Order)
    ensures var step := Submit(t, d, m, k, o);
      && |step.log| <= 1 && (step.raised <==> t.persist && step.log != [] && step.log[0].snapshot.None?)
  {
    hide ApplyFill, GetAccount;
  }

  /** Which exceptions leave a call. Without its quote, or without those of the symbols held, it raises and has done
      nothing; whatever goes wrong with an order is swallowed; but after a fill that is recorded the account has to be
      marked again, and a symbol without a quote in that batch raises when the trade is done. */
  lemma CallRaisesIff(c: Config, d: Desk, ev: Event)
    requires !ev.Rebuild?
    ensures var held, step := d.ledger.book.held.Keys, Call(c, d, ev);
      && (ev.NewDay? || ev.SnapshotNow? ==> (step.raised <==> !(held <= ev.m.prices(ev.k).Keys)))
      && (ev.ExitChecks? ==>
            (step.raised <==> || !(held <= ev.m.prices(ev.k).Keys)
                              || (c.terms.persist && step.log != [] && step.log[|step.log| - 1].snapshot.None?))
            && (!(held <= ev.m.prices(ev.k).Keys) ==> step.desk == d && step.log == []))
      && (ev.OnSignal? && ev.sig.kind == HOLD ==> step == Step(d, [], ev.k, false))
      && (ev.OnSignal? && ev.sig.kind != HOLD ==>
            var unseen := ev.sig.symbol !in ev.m.prices(ev.k) || !(held <= ev.m.prices(ev.k + 1).Keys);
            && (unseen ==> step.raised && step.desk == d && step.log == [])
            && (!unseen ==> (step.raised <==> c.terms.persist && step.log != [] && step.log[0].snapshot.None?)))
  {
    hide Submit, EvaluateSignal, CheckExits, SubmitAll, PositionsValue;
    var b := d.ledger.book;
    match ev {
      case NewDay(m, k) =>
      case SnapshotNow(m, k) =>
      case ExitChecks(m, k) =>
        OnlyRecordingRaises(c.terms, d, m, k + 1,
                            CheckExits(c.limits.stopLossPct, c.limits.takeProfitPct, b, m.prices(k)));
      case OnSignal(m, k, sig) =>
        if sig.symbol in m.prices(k) && GetAccount(d.ledger, m, k + 1).Some? {
          var a := GetAccount(d.ledger, m, k + 1).value;
          var decision := EvaluateSignal(c.limits, sig, m.prices(k)[sig.symbol], a, b, d.baseline);
          if decision.Approved? {
            OneSubmitRaises(c.terms, d, m, k + 2, decision.order);
          }
        }
    }
  }
}
