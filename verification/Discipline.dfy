/** Every engine call does nothing but legal moves: the step from one call to facts about whole logs. */
module Discipline {
  import opened Domain
  import opened Ledgers
  import opened Risk
  import opened Trading

  lemma FillsAppend(a: seq<Entry>, b: seq<Entry>)
    ensures Fills(a + b) == Fills(a) + Fills(b)
  {
  }

  lemma EndAppend(l: Ledger, a: seq<Entry>, b: seq<Entry>)
    ensures End(l, a + b) == End(End(l, a), b)
  {
    FillsAppend(a, b);
    ReplayAppend(l, Fills(a), Fills(b));
  }

  lemma EndSnoc(l: Ledger, log: seq<Entry>)
    requires log != []
    ensures End(l, log) == After(Before(l, log, |log| - 1), log[|log| - 1].fill)
    ensures Before(l, log, |log| - 1) == End(l, log[..|log| - 1])
  {
    assert Fills(log)[..|log| - 1] == Fills(log[..|log| - 1]);
  }

  lemma EndSingle(l: Ledger, e: Entry)
    ensures End(l, [e]) == After(l, e.fill)
    ensures Before(l, [e], 0) == l
  {
    EndSnoc(l, [e]);
  }

  lemma DisciplinedInit(c: Config, l: Ledger, log: seq<Entry>)
    requires Disciplined(c, l, log) && log != []
    ensures Disciplined(c, l, log[..|log| - 1])
    ensures LegalMove(c, End(l, log[..|log| - 1]), log[|log| - 1])
    ensures FaithfulSnapshot(End(l, log[..|log| - 1]), log[|log| - 1])
  {
    var init := log[..|log| - 1];
    forall i | 0 <= i < |init|
      ensures LegalMove(c, Before(l, init, i), init[i]) && FaithfulSnapshot(Before(l, init, i), init[i]) {
      assert init[..i] == log[..i];
    }
  }

  lemma DisciplinedAppend(c: Config, l: Ledger, a: seq<Entry>, b: seq<Entry>)
    requires Disciplined(c, l, a) && Disciplined(c, End(l, a), b)
    ensures Disciplined(c, l, a + b)
    ensures End(l, a + b) == End(End(l, a), b)
  {
    EndAppend(l, a, b);
    forall i | 0 <= i < |a + b|
      ensures LegalMove(c, Before(l, a + b, i), (a + b)[i]) && FaithfulSnapshot(Before(l, a + b, i), (a + b)[i]) {
      if i < |a| {
        assert (a + b)[..i] == a[..i];
      } else {
        assert (a + b)[..i] == a + b[..i - |a|];
        EndAppend(l, a, b[..i - |a|]);
      }
    }
  }

  lemma NothingIsDisciplined(c: Config, l: Ledger)
    ensures Disciplined(c, l, []) && End(l, []) == l
  {
  }

  lemma SingleMove(c: Config, l: Ledger, e: Entry)
    requires LegalMove(c, l, e) && FaithfulSnapshot(l, e)
    ensures Disciplined(c, l, [e]) && End(l, [e]) == After(l, e.fill)
  {
    hide LegalMove, FaithfulSnapshot, After;
    EndSingle(l, e);
  }

  lemma {:induction false} DisciplinedAccepts(c: Config, l: Ledger, log: seq<Entry>)
    requires Disciplined(c, l, log)
    ensures Accepted(l, Fills(log))
  {
    forall i | 0 <= i < |log| ensures ApplyFill(Replay(l, Fills(log)[..i]), Fills(log)[i]).Filled? {
      assert Fills(log)[..i] == Fills(log[..i]);
      assert LegalMove(c, Before(l, log, i), log[i]);
    }
  }

  /** What an engine call from desk `d` guarantees about its step. */
  ghost predicate Orderly(c: Config, d: Desk, m: Market, step: Step) {
    && step.desk.ledger == End(d.ledger, step.log)
    && Disciplined(c, d.ledger, step.log)
    && PricedBy(m, step.log)
    && SnapshotsKept(c, step)
  }

  /** With a repository attached every fill is followed by a stored snapshot, except the one that raised. */
  predicate SnapshotsKept(c: Config, step: Step) {
    && (!c.terms.persist ==> forall i | 0 <= i < |step.log| :: step.log[i].snapshot.None?)
    && (c.terms.persist ==> forall i | 0 <= i < |step.log| ::
          step.log[i].snapshot.None? <==> step.raised && i == |step.log| - 1)
  }

  /** An order that the risk rules may have issued for this ledger. */
  ghost predicate Issuable(c: Config, l: Ledger, o: Order) {
    match o.side
    case Buy =>
      && o.symbol !in l.book.held && |l.book.order| < c.limits.maxOpenPositions
      && Whole(o.quantity) && o.quantity >= 1.0 && o.strategyName == c.terms.strategyName
    case Sell =>
      && o.symbol in l.book.held && o.quantity == l.book.held[o.symbol].quantity
      && (o.strategyName == c.terms.strategyName || IsRiskTag(o.strategyName))
  }

  lemma SubmitIsOrderly(c: Config, d: Desk, m: Market, k: nat, o: Order)
    requires Issuable(c, d.ledger, o)
    ensures Orderly(c, d, m, Submit(c.terms, d, m, k, o))
    ensures Submit(c.terms, d, m, k, o).desk.baseline == d.baseline
    ensures |Submit(c.terms, d, m, k, o).log| <= 1
  {
    hide Profit, Notional, Averaged;
    var step := Submit(c.terms, d, m, k, o);
    if step.log != [] {
      var e := step.log[0];
      assert step.log == [e];
      EndSingle(d.ledger, e);
      assert e.fill == FillOf(c.terms, m, k, o);
    }
  }

  lemma SoldOut(l: Ledger, f: Fill)
    requires l.book.Valid() && f.side.Sell? && f.symbol in l.book.held
    requires f.quantity == l.book.held[f.symbol].quantity
    ensures ApplyFill(l, f).Filled?
    ensures After(l, f).book == Closed(l.book, f.symbol)
    ensures After(l, f).cash == l.cash + (Notional(f) - f.commission)
  {
    hide Profit, Notional;
  }

  lemma BoughtIn(l: Ledger, f: Fill)
    requires f.side.Buy? && f.symbol !in l.book.held && ApplyFill(l, f).Filled?
    ensures After(l, f).book == Opened(l.book, f.symbol, Holding(f.quantity, f.price, f.timestamp))
    ensures After(l, f).cash == l.cash - (Notional(f) + f.commission)
  {
    hide Notional;
  }

  /** Submitting an exit leaves every other exit issuable. */
  lemma {:induction false} ExitsAreOrderly(c: Config, d: Desk, m: Market, k: nat, orders: seq<Order>)
    requires d.ledger.book.Valid() && SellsOut(d.ledger.book, orders)
    ensures var step := SubmitAll(c.terms, d, m, k, orders);
      && Orderly(c, d, m, step) && step.desk.baseline == d.baseline && step.desk.ledger.book.Valid()
      && (forall s :: s in d.ledger.book.held && !Ordered(orders, s) ==>
            s in step.desk.ledger.book.held && step.desk.ledger.book.held[s] == d.ledger.book.held[s])
      && (forall s :: s in step.desk.ledger.book.held ==> s in d.ledger.book.held)
  {
    if orders != [] {
      var init, o := orders[..|orders| - 1], orders[|orders| - 1];
      var before := SubmitAll(c.terms, d, m, k, init);
      SellsOutSnoc(d.ledger.book, orders);
      hide Ordered;
      ExitsAreOrderly(c, d, m, k, init);
      if !before.raised {
        assert Issuable(c, before.desk.ledger, o);
        SubmitIsOrderly(c, before.desk, m, before.moment, o);
        SubmitAllStep(c, d, m, k, orders);
      }
    }
  }

  lemma SubmitAllStep(c: Config, d: Desk, m: Market, k: nat, orders: seq<Order>)
    requires orders != []
    requires var before := SubmitAll(c.terms, d, m, k, orders[..|orders| - 1]);
      && !before.raised && before.desk.ledger.book.Valid() && Orderly(c, d, m, before)
      && Orderly(c, before.desk, m, Submit(c.terms, before.desk, m, before.moment, orders[|orders| - 1]))
    ensures var before := SubmitAll(c.terms, d, m, k, orders[..|orders| - 1]);
      var step, s := SubmitAll(c.terms, d, m, k, orders), orders[|orders| - 1].symbol;
      && Orderly(c, d, m, step) && step.desk.ledger.book.Valid()
      && (forall t :: t != s ==> (t in step.desk.ledger.book.held <==> t in before.desk.ledger.book.held))
      && (forall t :: t != s && t in before.desk.ledger.book.held ==>
            step.desk.ledger.book.held[t] == before.desk.ledger.book.held[t])
  {
    var before, o := SubmitAll(c.terms, d, m, k, orders[..|orders| - 1]), orders[|orders| - 1];
    var last := Submit(c.terms, before.desk, m, before.moment, o);
    DisciplinedAppend(c, d.ledger, before.log, last.log);
    if o.symbol in m.prices(before.moment) {
      AfterKeepsBook(before.desk.ledger, FillOf(c.terms, m, before.moment, o));
    }
  }

  lemma LastExitIsIssuable(c: Config, d: Desk, m: Market, k: nat, orders: seq<Order>)
    requires d.ledger.book.Valid() && SellsOut(d.ledger.book, orders) && orders != []
    ensures var init, o := orders[..|orders| - 1], orders[|orders| - 1];
      && SellsOut(d.ledger.book, init) && o.side.Sell?
      && Issuable(c, SubmitAll(c.terms, d, m, k, init).desk.ledger, o)
      && Orderly(c, d, m, SubmitAll(c.terms, d, m, k, init))
      && forall s :: Ordered(orders, s) <==> Ordered(init, s) || s == o.symbol
  {
    var init, o := orders[..|orders| - 1], orders[|orders| - 1];
    SellsOutSnoc(d.ledger.book, orders);
    hide Ordered, Orderly, SubmitAll;
    ExitsAreOrderly(c, d, m, k, init);
  }

  lemma RunExitChecksIsOrderly(c: Config, d: Desk, m: Market, k: nat)
    requires d.ledger.book.Valid()
    ensures Orderly(c, d, m, RunExitChecks(c, d, m, k))
    ensures RunExitChecks(c, d, m, k).desk.baseline == d.baseline
  {
    if d.ledger.book.held.Keys <= m.prices(k).Keys {
      var orders := CheckExits(c.limits.stopLossPct, c.limits.takeProfitPct, d.ledger.book, m.prices(k));
      CheckExitsByBreach(c.limits.stopLossPct, c.limits.takeProfitPct, d.ledger.book, m.prices(k));
      ExitsAreOrderly(c, d, m, k + 1, orders);
    }
  }

  lemma ProcessSignalIsOrderly(c: Config, d: Desk, m: Market, k: nat, sig: Signal)
    requires d.ledger.book.Valid() && sig.strategyName == c.terms.strategyName
    ensures Orderly(c, d, m, ProcessSignal(c, d, m, k, sig))
    ensures ProcessSignal(c, d, m, k, sig).desk.baseline == d.baseline
    ensures |ProcessSignal(c, d, m, k, sig).log| <= 1
  {
    if sig.kind.HOLD? || sig.symbol !in m.prices(k) || GetAccount(d.ledger, m, k + 1).None? {
    } else {
      var a := GetAccount(d.ledger, m, k + 1).value;
      var decision := EvaluateSignal(c.limits, sig, m.prices(k)[sig.symbol], a, d.ledger.book, d.baseline);
      if decision.Approved? {
        hide DailyLossHit, OrderValue, Lots;
        assert Issuable(c, d.ledger, decision.order);
        SubmitIsOrderly(c, d, m, k + 2, decision.order);
      }
    }
  }
}
