/** Concrete runs after which a restart does not resume the live account, and what it does instead. */
module Counterexamples {
  import opened Arithmetic
  import opened Discipline
  import opened Divergence
  import opened Domain
  import opened Ledgers
  import Profits
  import opened Restart
  import opened Risk
  import opened Runs
  import opened Safety
  import opened Stores
  import opened StrategyReports
  import opened Tally
  import opened Trading

  /** At most one position, a stop five percent down, and a commission of ten. */
  const CAUTIOUS := Config(Limits(1.0, 1.0, Some(0.05), None, None, 1), Terms(10.0, "sma", true))

  function Quotes(price: real): map<Symbol, real> {
    map["AAPL" := price, "MSFT" := price]
  }

  function Steady(price: real, start: int): Market {
    Market((k: nat) => Quotes(price), (k: nat) => start + k, (k: nat) => start + k)
  }

  /** The vendor answers three batches, then raises. */
  function Failing(price: real): Market {
    Market((k: nat) => if k < 3 then Quotes(price) else map[], (k: nat) => k, (k: nat) => k)
  }

  function Fresh(): Desk {
    Desk(Ledger(1000.0, false, EMPTY_BOOK, 0.0), None)
  }

  function Own(s: Symbol, kind: SignalType): Signal {
    Signal(s, kind, "sma")
  }

  lemma TenShares(a: Account, s: Symbol, price: real)
    requires (price == 99.0 && a.cash == 1000.0) || (price == 88.0 && a.cash == 890.0)
    requires a.positionsValue == 0.0
    ensures EvaluateSignal(CAUTIOUS.limits, Own(s, BUY), price, a, EMPTY_BOOK, None)
         == Approved(Order(s, Buy, 10.0, "sma"))
  {
    assert OrderValue(CAUTIOUS.limits, a) == a.cash;
    assert Lots(a.cash, price) == 10;
  }

  /** All cash goes into ten shares; the call raises if the account cannot be marked afterwards. */
  lemma BoughtTen(d: Desk, m: Market, s: Symbol, price: real)
    requires (price == 99.0 && d.ledger.cash == 1000.0) || (price == 88.0 && d.ledger.cash == 890.0)
    requires !d.ledger.unlimited && d.ledger.book == EMPTY_BOOK && d.baseline == None && s in Quotes(price)
    requires forall k: nat | k < 3 :: m.prices(k) == Quotes(price)
    ensures var step := Call(CAUTIOUS, d, OnSignal(m, 0, Own(s, BUY)));
      && |step.log| == 1 && step.log[0].tag == "sma"
      && step.log[0].fill == FillOf(CAUTIOUS.terms, m, 2, Order(s, Buy, 10.0, "sma"))
      && step.log[0].snapshot == GetAccount(step.desk.ledger, m, 3)
      && step.desk.ledger.cash == 0.0 && !step.desk.ledger.unlimited && step.desk.baseline == None
      && step.desk.ledger.book == Book([s], map[s := Holding(10.0, price, m.clock(2))])
      && step.raised == (s !in m.prices(3))
  {
    assert m.prices(0)[s] == price && m.prices(2)[s] == price;
    assert PositionsValue(EMPTY_BOOK, m.prices(1)) == 0.0;
    TenShares(GetAccount(d.ledger, m, 1).value, s, price);
    hide EvaluateSignal;
    var o := Order(s, Buy, 10.0, "sma");
    assert ProcessSignal(CAUTIOUS, d, m, 0, Own(s, BUY)) == Submit(CAUTIOUS.terms, d, m, 2, o);
    var f := FillOf(CAUTIOUS.terms, m, 2, o);
    assert Notional(f) + f.commission == d.ledger.cash;
    hide Notional;
    BoughtIn(d.ledger, f);
  }

  lemma OneEntry(st: Store, name: string, log: seq<Entry>)
    requires |log| == 1 && st.snapshots == []
    ensures |Persist(st, name, log).snapshots| <= 1
  {
    assert log == [] + [log[0]];
    PersistSnoc(st, name, [], log[0]);
  }

  /** A vendor that raises right after a fill: the shares are stored, the cash that paid for them is not. */
  lemma FailedSnapshotLosesCash()
    ensures var ev := OnSignal(Failing(99.0), 0, Own("AAPL", BUY));
      && Synced(CAUTIOUS, 1000.0, Fresh(), EMPTY_STORE)
      && LawfulEvent(CAUTIOUS, 1000.0, EMPTY_STORE, ev)
      && !LosesNothing(CAUTIOUS, 1000.0, Call(CAUTIOUS, Fresh(), ev).desk.ledger,
                       Stored(CAUTIOUS, Fresh(), EMPTY_STORE, ev))
  {
    var m := Failing(99.0);
    var ev := OnSignal(m, 0, Own("AAPL", BUY));
    var step := Call(CAUTIOUS, Fresh(), ev);
    FreshAccountIsSynced(CAUTIOUS, 1000.0);
    BoughtTen(Fresh(), m, "AAPL", 99.0);
    CallIsOrderly(CAUTIOUS, 1000.0, Fresh(), EMPTY_STORE, ev);
    assert step.log[..0] == [] && End(Fresh().ledger, []) == Fresh().ledger;
    EndSnoc(Fresh().ledger, step.log);
    OneEntry(EMPTY_STORE, "sma", step.log);
    hide Call, After, LosesNothing;
    CallLosesNothingIff(CAUTIOUS, 1000.0, Fresh(), EMPTY_STORE, ev);
  }

  lemma StopIsHit(h: Holding, price: real)
    requires h.quantity == 10.0 && h.avgEntryPrice == 99.0 && (price == 90.0 || price == 0.1)
    ensures CheckExits(Some(0.05), None, Book(["AAPL"], map["AAPL" := h]), Quotes(price))
         == [Order("AAPL", Sell, 10.0, STOP_LOSS_TAG)]
  {
    var b := Book(["AAPL"], map["AAPL" := h]);
    assert ChangePct(99.0, price) <= -0.05;
    assert ExitOrder(Some(0.05), None, "AAPL", h, price) == Some(Order("AAPL", Sell, 10.0, STOP_LOSS_TAG));
    hide ExitOrder;
    assert ExitsAmong(Some(0.05), None, b, Quotes(price), 0) == [];
  }

  lemma StoppedOut(d: Desk, h: Holding, price: real, start: int)
    requires d.ledger.book == Book(["AAPL"], map["AAPL" := h])
    requires h.quantity == 10.0 && h.avgEntryPrice == 99.0 && (price == 90.0 || price == 0.1)
    ensures var m := Steady(price, start);
      var step := Call(CAUTIOUS, d, ExitChecks(m, 0));
      && !step.raised && step.desk.ledger.book == EMPTY_BOOK
      && step.desk.ledger.cash == d.ledger.cash + 10.0 * price - 10.0
      && step.desk.ledger.unlimited == d.ledger.unlimited && step.desk.baseline == d.baseline
      && |step.log| == 1 && step.log[0].tag == STOP_LOSS_TAG
      && step.log[0].fill == FillOf(CAUTIOUS.terms, m, 1, Order("AAPL", Sell, 10.0, STOP_LOSS_TAG))
      && step.log[0].snapshot == GetAccount(step.desk.ledger, m, 2)
  {
    hide Profit, CheckExits, PositionsValue;
    var m, o := Steady(price, start), Order("AAPL", Sell, 10.0, STOP_LOSS_TAG);
    StopIsHit(h, price);
    assert RunExitChecks(CAUTIOUS, d, m, 0) == SubmitAll(CAUTIOUS.terms, d, m, 1, [o]);
    var step, orders := Submit(CAUTIOUS.terms, d, m, 1, o), [o];
    assert orders[..|orders| - 1] == [];
    assert SubmitAll(CAUTIOUS.terms, d, m, 1, []) == Step(d, [], 1, false);
    SoldOut(d.ledger, FillOf(CAUTIOUS.terms, m, 1, o));
    assert Notional(FillOf(CAUTIOUS.terms, m, 1, o)) == 10.0 * price;
    hide Notional;
    assert ["AAPL"][..0] == [] && Without([], "AAPL") == [];
    assert Without(["AAPL"], "AAPL") == [];
    assert Closed(d.ledger.book, "AAPL") == EMPTY_BOOK;
    assert step.desk.ledger.book == EMPTY_BOOK;
    assert [] + step.log == step.log;
  }

  /** Buy, stop-loss, buy of another symbol. */
  function ThreeCalls(): seq<Event> {
    [OnSignal(Steady(99.0, 0), 0, Own("AAPL", BUY)), ExitChecks(Steady(90.0, 10), 0),
     OnSignal(Steady(88.0, 20), 0, Own("MSFT", BUY))]
  }

  lemma TwoSalesOneBuy(log: seq<Entry>, sale: Entry, a: Symbol, b: Symbol)
    requires a != b && |log| == 3 && log[0].fill.symbol == log[1].fill.symbol == sale.fill.symbol == a
    requires log[2].fill.symbol == b
    ensures FillsOf(log + [sale], a) == [log[0].fill, log[1].fill, sale.fill]
  {
    var four := log + [sale];
    assert four[..3] == log && log[..2][..1][..0] == [];
    assert FillsOf(log[..2][..1], a) == [log[0].fill];
    assert FillsOf(log[..2], a) == [log[0].fill, log[1].fill];
    assert FillsOf(log, a) == [log[0].fill, log[1].fill];
  }

  lemma OutOfTurn(fs: seq<Fill>, i: nat)
    requires i < |fs| && i % 2 == 0 && fs[i].side.Sell?
    ensures !RoundTrips(fs)
  {
    assert !InTurn(fs, i);
  }

  lemma RunOneMore(d: Desk, st: Store, evs: seq<Event>, ev: Event)
    ensures var before := Run(CAUTIOUS, d, st, evs);
      var step, after := Call(CAUTIOUS, before.desk, ev), Run(CAUTIOUS, d, st, evs + [ev]);
      && after.desk == step.desk && after.log == before.log + step.log && after.raised == (before.raised || step.raised)
      && after.store == Stored(CAUTIOUS, before.desk, before.store, ev)
      && (!ev.Rebuild? ==>
            LogSince(CAUTIOUS, d, st, evs + [ev]) == LogSince(CAUTIOUS, d, st, evs) + step.log)
  {
    hide Call, Stored;
    assert (evs + [ev])[..|evs + [ev]| - 1] == evs;
  }

  lemma NothingYet(d: Desk, st: Store)
    ensures Run(CAUTIOUS, d, st, []) == Outcome(d, st, [], false) && LogSince(CAUTIOUS, d, st, []) == []
  {
  }

  function First(): Step {
    Call(CAUTIOUS, Fresh(), ThreeCalls()[0])
  }

  function Second(): Step {
    Call(CAUTIOUS, First().desk, ThreeCalls()[1])
  }

  function Third(): Step {
    Call(CAUTIOUS, Second().desk, ThreeCalls()[2])
  }

  /** The run and the log since the start agree, and their last call is this one. */
  ghost predicate Reached(evs: seq<Event>, desk: Desk, log: seq<Entry>, raised: bool) {
    && Run(CAUTIOUS, Fresh(), EMPTY_STORE, evs).desk == desk
    && Run(CAUTIOUS, Fresh(), EMPTY_STORE, evs).log == log
    && Run(CAUTIOUS, Fresh(), EMPTY_STORE, evs).raised == raised
    && LogSince(CAUTIOUS, Fresh(), EMPTY_STORE, evs) == log
  }

  lemma ReachedNext(evs: seq<Event>, desk: Desk, log: seq<Entry>, raised: bool, ev: Event)
    requires Reached(evs, desk, log, raised) && !ev.Rebuild?
    ensures var step := Call(CAUTIOUS, desk, ev);
      Reached(evs + [ev], step.desk, log + step.log, raised || step.raised)
  {
    hide Call, Run, LogSince;
    RunOneMore(Fresh(), EMPTY_STORE, evs, ev);
  }

  lemma ReachedStart()
    ensures Reached([], Fresh(), [], false)
  {
    NothingYet(Fresh(), EMPTY_STORE);
  }

  lemma RunOfThree()
    ensures Reached(ThreeCalls(), Third().desk, First().log + Second().log + Third().log,
                    First().raised || Second().raised || Third().raised)
  {
    hide Call, Reached;
    var evs := ThreeCalls();
    ReachedStart();
    ReachedNext([], Fresh(), [], false, evs[0]);
    assert [] + First().log == First().log && [] + [evs[0]] == [evs[0]];
    ReachedNext([evs[0]], First().desk, First().log, First().raised, evs[1]);
    assert [evs[0]] + [evs[1]] == [evs[0], evs[1]];
    ReachedNext([evs[0], evs[1]], Second().desk, First().log + Second().log, First().raised || Second().raised, evs[2]);
    assert [evs[0], evs[1]] + [evs[2]] == evs;
  }

  lemma ThreeSteps()
    ensures !First().raised && !Second().raised && !Third().raised
    ensures |First().log| == 1 && |Second().log| == 1 && |Third().log| == 1
    ensures var a, b, c := First().log[0], Second().log[0], Third().log[0];
      && a.fill.side.Buy? && b.fill.side.Sell? && c.fill.side.Buy?
      && a.tag == "sma" && b.tag == STOP_LOSS_TAG && c.tag == "sma"
      && a.fill.symbol == "AAPL" && b.fill.symbol == "AAPL" && c.fill.symbol == "MSFT"
      && b.fill.quantity == 10.0
      && a.fill.timestamp == a.fill.id == 2 && b.fill.timestamp == b.fill.id == 11
      && c.fill.timestamp == c.fill.id == 22
    ensures Third().desk.ledger.book.held.Keys == {"MSFT"}
  {
    hide Call;
    BoughtTen(Fresh(), Steady(99.0, 0), "AAPL", 99.0);
    StoppedOut(First().desk, First().desk.ledger.book.held["AAPL"], 90.0, 10);
    BoughtTen(Second().desk, Steady(88.0, 20), "MSFT", 88.0);
  }

  lemma ThreeCallsAreLawful()
    ensures Synced(CAUTIOUS, 1000.0, Fresh(), EMPTY_STORE)
    ensures Lawful(CAUTIOUS, 1000.0, Fresh(), EMPTY_STORE, ThreeCalls()) && Uninterrupted(ThreeCalls())
  {
    hide Run;
    FreshAccountIsSynced(CAUTIOUS, 1000.0);
  }

  lemma AfterThreeCalls()
    ensures var evs := ThreeCalls();
      && Synced(CAUTIOUS, 1000.0, Fresh(), EMPTY_STORE)
      && Lawful(CAUTIOUS, 1000.0, Fresh(), EMPTY_STORE, evs) && Uninterrupted(evs)
      && var after := Run(CAUTIOUS, Fresh(), EMPTY_STORE, evs);
      && !after.raised && after.log == LogSince(CAUTIOUS, Fresh(), EMPTY_STORE, evs)
      && after.desk.ledger.book.held.Keys == {"MSFT"} && |after.log| == 3
      && (forall i | 0 <= i < 3 :: after.log[i].fill.side.Sell? <==> i == 1)
      && (forall i | 0 <= i < 3 :: IsRiskTag(after.log[i].tag) <==> i == 1)
      && (forall i | 0 <= i < 3 :: after.log[i].fill.symbol == if i == 2 then "MSFT" else "AAPL")
      && after.log[1].fill.quantity == 10.0
      && (forall i | 0 <= i < 3 :: after.log[i].fill.timestamp == after.log[i].fill.id
                                   == if i == 0 then 2 else if i == 1 then 11 else 22)
  {
    hide Call, LogSince, Run, Lawful, Synced, First, Second, Third;
    ThreeCallsAreLawful();
    RunOfThree();
    ThreeSteps();
  }

  function SellApple(): Event {
    OnSignal(Steady(90.0, 30), 0, Own("AAPL", SELL))
  }

  /** The own-name sale of a position that a restart brought back. */
  lemma SoldAgain(d: Desk)
    requires d.ledger.book.Valid() && d.ledger.book.held.Keys == {"AAPL", "MSFT"}
    requires QuantityOf(d.ledger.book, "AAPL") == 10.0
    ensures var step := Call(CAUTIOUS, d, SellApple());
      |step.log| == 1 && step.log[0].fill.side.Sell? && step.log[0].fill.symbol == "AAPL"
  {
    hide Notional, Profit, PositionsValue;
    var m, o := Steady(90.0, 30), Order("AAPL", Sell, 10.0, "sma");
    assert EvaluateSell(Own("AAPL", SELL), d.ledger.book) == Approved(o);
    assert ProcessSignal(CAUTIOUS, d, m, 0, Own("AAPL", SELL)) == Submit(CAUTIOUS.terms, d, m, 2, o);
    SoldOut(d.ledger, FillOf(CAUTIOUS.terms, m, 2, o));
    hide ApplyFill;
  }

  lemma OwnFillsAreNotForced(e: Entry)
    requires !IsRiskTag(e.tag)
    ensures ForcedSale(e, "AAPL") == 0.0
  {
  }

  lemma ForcedSaleIs(e: Entry)
    requires IsRiskTag(e.tag) && e.fill.side.Sell? && e.fill.symbol == "AAPL"
    ensures ForcedSale(e, "AAPL") == e.fill.quantity
  {
  }

  lemma SoldOnce(log: seq<Entry>)
    requires |log| == 3 && IsRiskTag(log[1].tag) && !IsRiskTag(log[0].tag) && !IsRiskTag(log[2].tag)
    requires log[1].fill.side.Sell? && log[1].fill.symbol == "AAPL"
    ensures RiskSold(log, "AAPL") == log[1].fill.quantity
  {
    hide ForcedSale;
    var two := log[..2];
    var one := two[..1];
    assert one[..0] == [];
    assert RiskSold(one, "AAPL") == RiskSold([], "AAPL") + ForcedSale(one[0], "AAPL");
    assert RiskSold(two, "AAPL") == RiskSold(one, "AAPL") + ForcedSale(two[1], "AAPL");
    OwnFillsAreNotForced(log[0]);
    OwnFillsAreNotForced(log[2]);
    assert ForcedSale(log[1], "AAPL") == log[1].fill.quantity by {
      ForcedSaleIs(log[1]);
    }
  }

  /** A stop-loss exit leaves the row its BUY created. So after the three calls, which end with one position in MSFT,
      every restart holds the ten shares of AAPL again: one position more than the limit allows. */
  lemma ForcedExitIsResurrected(r: Ledger)
    requires RebuiltFrom(Run(CAUTIOUS, Fresh(), EMPTY_STORE, ThreeCalls()).store, "sma", 1000.0, r)
    ensures var live := Run(CAUTIOUS, Fresh(), EMPTY_STORE, ThreeCalls()).desk.ledger;
      && "AAPL" !in live.book.held && QuantityOf(r.book, "AAPL") == 10.0
      && r.book.held.Keys == {"AAPL", "MSFT"} && |r.book.order| == 2 > CAUTIOUS.limits.maxOpenPositions
  {
    hide Run, LogSince, RebuiltFrom;
    AfterThreeCalls();
    var after := Run(CAUTIOUS, Fresh(), EMPTY_STORE, ThreeCalls());
    RunDiverges(CAUTIOUS, 1000.0, Fresh(), EMPTY_STORE, ThreeCalls());
    assert QuantityOf(r.book, "AAPL") == 0.0 + RiskSold(after.log, "AAPL");
    SoldOnce(after.log);
    assert ForcedSymbols(after.log) == {"AAPL"};
    assert {"MSFT"} + {"AAPL"} == {"AAPL", "MSFT"};
  }

  lemma Rebuilds(d: Desk, r: Ledger)
    ensures Call(CAUTIOUS, d, Rebuild(r)) == Step(Desk(r, None), [], 0, false)
  {
  }

  lemma LawfulOneMore(d: Desk, st: Store, evs: seq<Event>, ev: Event)
    requires Lawful(CAUTIOUS, 1000.0, d, st, evs)
    requires LawfulEvent(CAUTIOUS, 1000.0, Run(CAUTIOUS, d, st, evs).store, ev)
    ensures Lawful(CAUTIOUS, 1000.0, d, st, evs + [ev])
  {
    hide LawfulEvent, Run;
    var all := evs + [ev];
    forall i | 0 <= i < |all| ensures LawfulEvent(CAUTIOUS, 1000.0, Run(CAUTIOUS, d, st, all[..i]).store, all[i]) {
      assert all[..i] == if i < |evs| then evs[..i] else evs;
    }
  }

  /** The restart itself: the account is the rebuilt one, and the log is what it was. */
  lemma AfterRestart(r: Ledger)
    requires RebuiltFrom(Run(CAUTIOUS, Fresh(), EMPTY_STORE, ThreeCalls()).store, "sma", 1000.0, r)
    ensures var three := Run(CAUTIOUS, Fresh(), EMPTY_STORE, ThreeCalls());
      var after := Run(CAUTIOUS, Fresh(), EMPTY_STORE, ThreeCalls() + [Rebuild(r)]);
      after.desk == Desk(r, None) && after.log == three.log
    ensures Lawful(CAUTIOUS, 1000.0, Fresh(), EMPTY_STORE, ThreeCalls() + [Rebuild(r)])
  {
    hide Run, Call, Stored, LogSince, Lawful, RebuiltFrom;
    AfterThreeCalls();
    RunOneMore(Fresh(), EMPTY_STORE, ThreeCalls(), Rebuild(r));
    Rebuilds(Run(CAUTIOUS, Fresh(), EMPTY_STORE, ThreeCalls()).desk, r);
    LawfulOneMore(Fresh(), EMPTY_STORE, ThreeCalls(), Rebuild(r));
  }

  lemma RebuiltIsValid(st: Store, r: Ledger)
    requires RebuiltFrom(st, "sma", 1000.0, r)
    ensures r.book.Valid()
  {
  }

  /** So over runs with restarts neither the position limit nor the round trips hold of the code: the restarted account
      is over the limit, and the strategy's next SELL of AAPL has no BUY before it. */
  lemma RestartBreaksLimitAndRoundTrips() returns (r: Ledger)
    ensures var evs := ThreeCalls() + [Rebuild(r)];
      && Lawful(CAUTIOUS, 1000.0, Fresh(), EMPTY_STORE, evs + [SellApple()])
      && |Run(CAUTIOUS, Fresh(), EMPTY_STORE, evs).desk.ledger.book.order| > CAUTIOUS.limits.maxOpenPositions
      && !RoundTrips(FillsOf(Run(CAUTIOUS, Fresh(), EMPTY_STORE, evs + [SellApple()]).log, "AAPL"))
  {
    hide Run, Call, Stored, LogSince, Lawful, RebuiltFrom, RoundTrips, FillsOf;
    var d, st, three := Fresh(), EMPTY_STORE, Run(CAUTIOUS, Fresh(), EMPTY_STORE, ThreeCalls());
    r := SomeRebuilt(three.store, "sma", 1000.0);
    var evs := ThreeCalls() + [Rebuild(r)];
    AfterRestart(r);
    ForcedExitIsResurrected(r);
    RunOneMore(d, st, evs, SellApple());
    LawfulOneMore(d, st, evs, SellApple());
    RebuiltIsValid(three.store, r);
    SoldAgain(Desk(r, None));
    var step := Call(CAUTIOUS, Desk(r, None), SellApple());
    assert step.log == [step.log[0]];
    AfterThreeCalls();
    assert "AAPL"[0] != "MSFT"[0];
    TwoSalesOneBuy(three.log, step.log[0], "AAPL", "MSFT");
    OutOfTurn(FillsOf(three.log + step.log, "AAPL"), 2);
  }

  lemma NoTradesYet(name: string)
    ensures OwnTradesOf(EMPTY_STORE, name) == []
  {
  }

  lemma OwnNameIsNoRiskTag()
    ensures !IsRiskTag("sma")
  {
  }

  /** Nor does the strategy's own report show what the forced exit cost: it misses that sale. */
  lemma ReportMissesForcedExit()
    ensures var after := Run(CAUTIOUS, Fresh(), EMPTY_STORE, ThreeCalls());
      !Profits.Holds(Profits.RealizedPnlByFill(OwnTradesOf(after.store, "sma")),
                     RunSells(CAUTIOUS, Fresh(), EMPTY_STORE, ThreeCalls()))
  {
    hide Run, LogSince, Lawful, Synced, Profits.Holds, Profits.RealizedPnlByFill, RunSells, IsRiskTag, OwnTradesOf;
    AfterThreeCalls();
    NoTradesYet("sma");
    var log := Run(CAUTIOUS, Fresh(), EMPTY_STORE, ThreeCalls()).log;
    assert IsRiskTag(log[1].tag);
    OwnNameIsNoRiskTag();
    RunReportIsLiveIff(CAUTIOUS, 1000.0, Fresh(), EMPTY_STORE, ThreeCalls());
  }

  /** Buy, and a stop-loss after a crash. */
  function TwoCalls(): seq<Event> {
    [OnSignal(Steady(99.0, 0), 0, Own("AAPL", BUY)), ExitChecks(Steady(0.1, 10), 0)]
  }

  lemma SavedOne(st: Store, name: string, log: seq<Entry>)
    requires |log| == 1
    ensures Persist(st, name, log) == SaveEntry(st, name, log[0])
  {
    PersistSnoc(st, name, [], log[0]);
    assert [] + [log[0]] == log;
  }

  /** The tables after the two calls: the row of the buy, and the cash after each of them. */
  lemma AfterTwoCalls()
    ensures Lawful(CAUTIOUS, 1000.0, Fresh(), EMPTY_STORE, TwoCalls())
    ensures var st := Run(CAUTIOUS, Fresh(), EMPTY_STORE, TwoCalls()).store;
      && st.rows == map[("sma", "AAPL") := Row(10.0, 99.0, 2, 2)]
      && |st.snapshots| == 2 && st.snapshots[0].account.timestamp < st.snapshots[1].account.timestamp
      && st.snapshots[1].strategyName == "sma" && st.snapshots[1].account.cash == -9.0
  {
    hide Call, LogSince;
    var evs, d, st := TwoCalls(), Fresh(), EMPTY_STORE;
    RunOneMore(d, st, [], evs[0]);
    RunOneMore(d, st, [evs[0]], evs[1]);
    assert [] + [evs[0]] == [evs[0]] && [evs[0]] + [evs[1]] == evs;
    NothingYet(d, st);
    hide Run;
    BoughtTen(d, Steady(99.0, 0), "AAPL", 99.0);
    var bought := Call(CAUTIOUS, d, evs[0]);
    StoppedOut(bought.desk, bought.desk.ledger.book.held["AAPL"], 0.1, 10);
    var sold := Call(CAUTIOUS, bought.desk, evs[1]);
    SavedOne(st, "sma", bought.log);
    SavedOne(SaveEntry(st, "sma", bought.log[0]), "sma", sold.log);
  }

  lemma ResumedAfterTwo(st: Store, r: Ledger)
    requires RebuiltFrom(st, "sma", 1000.0, r)
    requires st.rows == map[("sma", "AAPL") := Row(10.0, 99.0, 2, 2)]
    requires |st.snapshots| == 2 && st.snapshots[0].account.timestamp < st.snapshots[1].account.timestamp
    requires st.snapshots[1].strategyName == "sma" && st.snapshots[1].account.cash == -9.0
    ensures r.cash == -9.0 && r.book == Book(["AAPL"], map["AAPL" := Holding(10.0, 99.0, 2)])
  {
    var latest :| IsLatest(st.snapshots, "sma", latest) && latest.account.cash == r.cash;
    assert st.snapshots[1] in st.snapshots;
    assert r.book.held == map["AAPL" := Holding(10.0, 99.0, 2)];
    OrderCounts(r.book.order, {"AAPL"});
    assert r.book.order[0] == "AAPL" by {
      assert r.book.order[0] in r.book.order;
    }
    assert r.book.order == ["AAPL"];
  }

  /** With commissions the cash floor fails as well: what a restart brings back can be sold again, and pays again. */
  lemma RestartBreaksCashFloor() returns (r: Ledger)
    ensures var evs := TwoCalls() + [Rebuild(r)];
      var more := evs + [ExitChecks(Steady(0.1, 30), 0)];
      && Lawful(CAUTIOUS, 1000.0, Fresh(), EMPTY_STORE, more)
      && Run(CAUTIOUS, Fresh(), EMPTY_STORE, more).desk.ledger.cash
         < -EPSILON - Times(CAUTIOUS.terms.commission, Shares(CAUTIOUS.limits.maxOpenPositions))
  {
    hide Run, Call, Stored, LogSince, Lawful;
    var d, st, two := Fresh(), EMPTY_STORE, Run(CAUTIOUS, Fresh(), EMPTY_STORE, TwoCalls());
    r := SomeRebuilt(two.store, "sma", 1000.0);
    var evs, again := TwoCalls() + [Rebuild(r)], ExitChecks(Steady(0.1, 30), 0);
    AfterTwoCalls();
    ResumedAfterTwo(two.store, r);
    hide RebuiltFrom;
    RunOneMore(d, st, TwoCalls(), Rebuild(r));
    RunOneMore(d, st, evs, again);
    Rebuilds(two.desk, r);
    LawfulOneMore(d, st, TwoCalls(), Rebuild(r));
    LawfulOneMore(d, st, evs, again);
    StoppedOut(Desk(r, None), r.book.held["AAPL"], 0.1, 30);
  }
}
