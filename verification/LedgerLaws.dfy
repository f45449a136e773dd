/** Accounting laws of the ledger, over every sequence of accepted fills: what money is conserved, how large the
    error of the tolerance can grow, and that replaying a log recovers the live profit and loss. */
module LedgerLaws {
  import opened Arithmetic
  import opened Domain
  import opened Ledgers

  /** The cost basis that a sell drops, or invents, when it closes a position whose remainder is within EPSILON. */
  function Residue(l: Ledger, f: Fill): real {
    if Closes(l, f) then Cost(Reduced(l.book.held[f.symbol], f.quantity)) else 0.0
  }

  predicate Closes(l: Ledger, f: Fill) {
    f.side.Sell? && f.symbol in l.book.held && Reduced(l.book.held[f.symbol], f.quantity).quantity <= EPSILON
  }

  function Dust(l: Ledger, fills: seq<Fill>): real {
    if fills == [] then 0.0
    else Dust(l, fills[..|fills| - 1]) + Residue(Replay(l, fills[..|fills| - 1]), fills[|fills| - 1])
  }

  /** The sum of the average entry prices of the positions that the log's sells close. */
  function ClosingAverages(l: Ledger, fills: seq<Fill>): real {
    if fills == [] then 0.0
    else
      ClosingAverages(l, fills[..|fills| - 1])
      + ClosingAverage(Replay(l, fills[..|fills| - 1]), fills[|fills| - 1])
  }

  function BuyCommissions(fills: seq<Fill>): real {
    if fills == [] then 0.0
    else
      var f := fills[|fills| - 1];
      BuyCommissions(fills[..|fills| - 1]) + if f.side.Buy? then f.commission else 0.0
  }

  lemma AverageKeepsCost(h: Holding, q: real, p: real)
    requires h.quantity + q != 0.0
    ensures Cost(Averaged(h, q, p)) == Cost(h) + q * p
  {
    var x, t := h.quantity * h.avgEntryPrice + q * p, h.quantity + q;
    assert t * (x / t) == x;
  }

  lemma ProfitIsProceedsLessCost(h: Holding, f: Fill)
    ensures Profit(h, f) == Notional(f) - f.commission - (Cost(h) - Cost(Reduced(h, f.quantity)))
  {
    var p, a, q, n := f.price, h.avgEntryPrice, f.quantity, h.quantity;
    assert (p - a) * q == q * p - q * a;
    assert (n - q) * a == n * a - q * a;
  }

  lemma MoneyOfBuy(l: Ledger, f: Fill)
    requires l.book.Valid() && f.side.Buy? && ApplyFill(l, f).Filled?
    ensures After(l, f).cash + CostBasis(After(l, f).book) == l.cash + CostBasis(l.book) - f.commission
    ensures After(l, f).realizedPl == l.realizedPl
  {
    hide CostBasis;
    var b, s := l.book, f.symbol;
    if s !in b.held {
      var h := Holding(f.quantity, f.price, f.timestamp);
      assert Cost(h) == Notional(f);
      hide Cost, Notional, Opened;
      OpenedTotals(b, s, h, map[]);
    } else {
      AverageKeepsCost(b.held[s], f.quantity, f.price);
      assert f.quantity * f.price == Notional(f);
      hide Cost, Notional, Averaged, Resized;
      ResizedTotals(b, s, Averaged(b.held[s], f.quantity, f.price), map[]);
    }
  }

  lemma MoneyOfSell(l: Ledger, f: Fill)
    requires l.book.Valid() && f.side.Sell? && ApplyFill(l, f).Filled?
    ensures After(l, f).cash + CostBasis(After(l, f).book)
         == l.cash + CostBasis(l.book) + (After(l, f).realizedPl - l.realizedPl) - Residue(l, f)
  {
    var b, s := l.book, f.symbol;
    ProfitIsProceedsLessCost(b.held[s], f);
    hide Cost, Notional, Profit, CostBasis, Closed, Resized;
    ClosedTotals(b, s, map[]);
    ResizedTotals(b, s, Reduced(b.held[s], f.quantity), map[]);
  }

  lemma MoneyStep(l: Ledger, f: Fill)
    requires l.book.Valid() && ApplyFill(l, f).Filled?
    ensures After(l, f).cash + CostBasis(After(l, f).book)
         == l.cash + CostBasis(l.book) + (After(l, f).realizedPl - l.realizedPl)
            - (if f.side.Buy? then f.commission else 0.0) - Residue(l, f)
  {
    hide ApplyFill, CostBasis, Cost;
    if f.side.Buy? {
      MoneyOfBuy(l, f);
    } else {
      MoneyOfSell(l, f);
    }
  }

  /** Money is conserved exactly, for every accepted log: cash plus cost basis moves only by the realized profit,
      the commissions on buys, and the dust of closed positions. */
  lemma {:induction false} MoneyIsConserved(l: Ledger, fills: seq<Fill>)
    requires l.book.Valid() && Accepted(l, fills)
    ensures Replay(l, fills).cash + CostBasis(Replay(l, fills).book)
         == l.cash + CostBasis(l.book) + (Replay(l, fills).realizedPl - l.realizedPl)
            - BuyCommissions(fills) - Dust(l, fills)
  {
    if fills != [] {
      AcceptedInit(l, fills);
      MoneyIsConserved(l, fills[..|fills| - 1]);
      ReplayKeepsBook(l, fills[..|fills| - 1]);
      MoneyStep(Replay(l, fills[..|fills| - 1]), fills[|fills| - 1]);
    }
  }

  /** The same law as an account holder reads it: equity is what was put in, plus realized and unrealized gains. */
  lemma EquityIsAccountedFor(l: Ledger, fills: seq<Fill>, prices: map<Symbol, real>)
    requires l.book.Valid() && Accepted(l, fills)
    requires Replay(l, fills).book.held.Keys <= prices.Keys
    ensures Equity(Replay(l, fills), prices)
         == l.cash + CostBasis(l.book) + (Replay(l, fills).realizedPl - l.realizedPl)
            + UnrealizedPl(Replay(l, fills).book, prices) - BuyCommissions(fills) - Dust(l, fills)
  {
    MoneyIsConserved(l, fills);
    ReplayKeepsBook(l, fills);
    EquitySplits(Replay(l, fills), prices);
  }

  ghost predicate Priced(b: Book) {
    forall s | s in b.held :: b.held[s].quantity > 0.0 && b.held[s].avgEntryPrice > 0.0
  }

  predicate PositiveFill(f: Fill) {
    f.quantity > 0.0 && f.price > 0.0
  }

  lemma PricedStep(l: Ledger, f: Fill)
    requires l.book.Valid() && Priced(l.book) && PositiveFill(f) && ApplyFill(l, f).Filled?
    ensures Priced(After(l, f).book)
  {
    if f.side.Buy? && f.symbol in l.book.held {
      var h := l.book.held[f.symbol];
      assert h.quantity * h.avgEntryPrice > 0.0;
      assert f.quantity * f.price > 0.0;
      assert After(l, f).book.held[f.symbol].avgEntryPrice > 0.0;
    }
  }

  lemma {:induction false} PricedReplay(l: Ledger, fills: seq<Fill>)
    requires l.book.Valid() && Priced(l.book) && Accepted(l, fills)
    requires forall f :: f in fills ==> PositiveFill(f)
    ensures Priced(Replay(l, fills).book)
  {
    if fills != [] {
      AcceptedInit(l, fills);
      PricedReplay(l, fills[..|fills| - 1]);
      ReplayKeepsBook(l, fills[..|fills| - 1]);
      PricedStep(Replay(l, fills[..|fills| - 1]), fills[|fills| - 1]);
    }
  }

  /** How much cost basis the tolerance may hide, for an amount of average entry price. */
  function Slack(amount: real): real {
    Times(EPSILON, amount)
  }

  function ClosingAverage(l: Ledger, f: Fill): real {
    if Closes(l, f) then l.book.held[f.symbol].avgEntryPrice else 0.0
  }

  lemma ResidueIsSmall(l: Ledger, f: Fill)
    requires Priced(l.book) && ApplyFill(l, f).Filled?
    ensures -Slack(ClosingAverage(l, f)) <= Residue(l, f) <= Slack(ClosingAverage(l, f))
  {
    if Closes(l, f) {
      var rest, avg := l.book.held[f.symbol].quantity - f.quantity, l.book.held[f.symbol].avgEntryPrice;
      assert Residue(l, f) == Times(rest, avg);
      hide Profit, Notional, Times;
      ScaledBound(rest, EPSILON, avg);
    } else {
      assert Slack(0.0) == 0.0;
    }
  }

  lemma SlackAdds(x: real, y: real)
    ensures Slack(x + y) == Slack(x) + Slack(y)
  {
  }

  /** The error of the tolerance: at most EPSILON for each unit of average entry price closed. */
  lemma {:induction false} DustIsBounded(l: Ledger, fills: seq<Fill>)
    requires l.book.Valid() && Priced(l.book) && Accepted(l, fills)
    requires forall f :: f in fills ==> PositiveFill(f)
    ensures -Slack(ClosingAverages(l, fills)) <= Dust(l, fills) <= Slack(ClosingAverages(l, fills))
  {
    if fills != [] {
      var init, f := fills[..|fills| - 1], fills[|fills| - 1];
      var before := Replay(l, init);
      AcceptedInit(l, fills);
      DustIsBounded(l, init);
      PricedReplay(l, init);
      hide ClosingAverage, Residue, Slack;
      ResidueIsSmall(before, f);
      SlackAdds(ClosingAverages(l, init), ClosingAverage(before, f));
    }
  }

  ghost predicate WholeBook(b: Book) {
    forall s | s in b.held :: Whole(b.held[s].quantity)
  }

  lemma WholeSum(x: real, y: real)
    requires Whole(x) && Whole(y)
    ensures Whole(x + y) && Whole(x - y)
  {
    var m: int :| x == Shares(m);
    var n: int :| y == Shares(n);
    assert x + y == Shares(m + n);
    assert x - y == Shares(m - n);
  }

  lemma WholeStep(l: Ledger, f: Fill)
    requires l.book.Valid() && WholeBook(l.book) && Whole(f.quantity) && ApplyFill(l, f).Filled?
    ensures WholeBook(After(l, f).book) && Residue(l, f) == 0.0
  {
    hide Profit, Notional;
    if f.symbol in l.book.held {
      WholeSum(l.book.held[f.symbol].quantity, f.quantity);
      if Closes(l, f) {
        assert Reduced(l.book.held[f.symbol], f.quantity).quantity == 0.0;
      }
    }
  }

  /** In whole shares there is no error at all. */
  lemma {:induction false} WholeSharesLeaveNoDust(l: Ledger, fills: seq<Fill>)
    requires l.book.Valid() && WholeBook(l.book) && Accepted(l, fills)
    requires forall f :: f in fills ==> Whole(f.quantity)
    ensures Dust(l, fills) == 0.0 && WholeBook(Replay(l, fills).book)
  {
    if fills != [] {
      AcceptedInit(l, fills);
      WholeSharesLeaveNoDust(l, fills[..|fills| - 1]);
      ReplayKeepsBook(l, fills[..|fills| - 1]);
      WholeStep(Replay(l, fills[..|fills| - 1]), fills[|fills| - 1]);
    }
  }

  /** Which fills a ledger takes: a buy that its cash covers up to the tolerance, and that does not average a position
      to no shares; a sell of no more than is held, up to the tolerance. A refused fill changes nothing, except that the
      averaging of a position to no shares has already taken the cash. */
  lemma FillAcceptedIff(l: Ledger, f: Fill)
    ensures f.side.Buy? ==>
              (ApplyFill(l, f).Filled?
               <==> && (l.unlimited || Times(f.quantity, f.price) + f.commission <= l.cash + EPSILON)
                    && (f.symbol in l.book.held ==> l.book.held[f.symbol].quantity + f.quantity != 0.0))
    ensures f.side.Sell? ==>
              (ApplyFill(l, f).Filled?
               <==> f.symbol in l.book.held && f.quantity <= l.book.held[f.symbol].quantity + EPSILON)
    ensures ApplyFill(l, f).Refused? ==>
              var r := ApplyFill(l, f);
              && (r.error == InsufficientShares <==> f.side.Sell?)
              && (r.error == InsufficientFunds
                  <==> f.side.Buy? && !l.unlimited && Times(f.quantity, f.price) + f.commission > l.cash + EPSILON)
              && (r.error == InsufficientFunds || r.error == InsufficientShares ==> r.ledger == l)
              && (r.error == DivisionByZero ==>
                    r.ledger == l.(cash := l.cash - (Times(f.quantity, f.price) + f.commission)))
  {
    assert Notional(f) == Times(f.quantity, f.price);
    hide Notional, Profit, Averaged, Times;
  }

  /** What one fill does to the money: a buy pays price and commission; a sell earns price less commission, and realizes
      that less the average cost of what it sold. */
  lemma FillMovesCash(l: Ledger, f: Fill)
    requires ApplyFill(l, f).Filled?
    ensures var paid, l' := Times(f.quantity, f.price), After(l, f);
      && (f.side.Buy? ==> l'.cash == l.cash - paid - f.commission && l'.realizedPl == l.realizedPl)
      && (f.side.Sell? ==>
            && l'.cash == l.cash + paid - f.commission
            && l'.realizedPl == l.realizedPl - f.commission
                                + Times(f.price - l.book.held[f.symbol].avgEntryPrice, f.quantity)
            && ApplyFill(l, f).realized == l'.realizedPl - l.realizedPl)
  {
    assert Notional(f) == Times(f.quantity, f.price);
    assert f.side.Sell? ==>
        var h := l.book.held[f.symbol]; Profit(h, f) == Times(f.price - h.avgEntryPrice, f.quantity) - f.commission;
    hide Notional, Profit, Averaged, Times;
  }

  /** What one fill does to the holding of its symbol. A buy adds its shares and its cost and keeps the date of an open
      position; a sell takes its shares off, keeps average price and date, and closes the position when no more than the
      tolerance is left. */
  lemma FillMovesHolding(l: Ledger, f: Fill)
    requires l.book.Valid() && ApplyFill(l, f).Filled?
    ensures var b, b', s := l.book.held, After(l, f).book.held, f.symbol;
      && (f.side.Buy? ==>
            && s in b' && b'[s].quantity == QuantityOf(l.book, s) + f.quantity
            && Times(b'[s].quantity, b'[s].avgEntryPrice)
               == (if s in b then Times(b[s].quantity, b[s].avgEntryPrice) else 0.0) + Times(f.quantity, f.price)
            && b'[s].openedAt == if s in b then b[s].openedAt else f.timestamp)
      && (f.side.Sell? ==>
            && s in b && (s in b' <==> b[s].quantity - f.quantity > EPSILON)
            && (s in b' ==> b'[s] == Holding(b[s].quantity - f.quantity, b[s].avgEntryPrice, b[s].openedAt)))
      && (forall t | t != s :: (t in b' <==> t in b) && (t in b ==> b'[t] == b[t]))
  {
    AfterKeepsBook(l, f);
    if f.side.Buy? && f.symbol in l.book.held {
      var h := l.book.held[f.symbol];
      AverageKeepsCost(h, f.quantity, f.price);
      assert Averaged(h, f.quantity, f.price).quantity == h.quantity + f.quantity;
    }
    hide Notional, Profit;
  }

  function Bought(fills: seq<Fill>, s: Symbol): real {
    if fills == [] then 0.0
    else
      var f := fills[|fills| - 1];
      Bought(fills[..|fills| - 1], s) + if f.symbol == s && f.side.Buy? then f.quantity else 0.0
  }

  function Sold(fills: seq<Fill>, s: Symbol): real {
    if fills == [] then 0.0
    else
      var f := fills[|fills| - 1];
      Sold(fills[..|fills| - 1], s) + if f.symbol == s && f.side.Sell? then f.quantity else 0.0
  }

  /** How many sells closed the position. */
  function Closings(l: Ledger, fills: seq<Fill>, s: Symbol): nat {
    if fills == [] then 0
    else
      var init, f := fills[..|fills| - 1], fills[|fills| - 1];
      Closings(l, init, s) + if f.symbol == s && Closes(Replay(l, init), f) then 1 else 0
  }

  lemma SharesStep(l: Ledger, f: Fill, s: Symbol)
    requires l.book.Valid() && ApplyFill(l, f).Filled?
    ensures var moved := if f.symbol != s then 0.0 else if f.side.Buy? then f.quantity else -f.quantity;
      var off := QuantityOf(After(l, f).book, s) - QuantityOf(l.book, s) - moved;
      && (!(f.symbol == s && Closes(l, f)) ==> off == 0.0)
      && (f.symbol == s && Closes(l, f) ==> -EPSILON <= off <= EPSILON)
      && (WholeBook(l.book) && Whole(f.quantity) ==> off == 0.0)
  {
    FillAcceptedIff(l, f);
    FillMovesHolding(l, f);
    if WholeBook(l.book) && Whole(f.quantity) {
      WholeStep(l, f);
      if f.symbol == s && Closes(l, f) {
        WholeSum(l.book.held[s].quantity, f.quantity);
      }
    }
    hide ApplyFill, Times, Residue;
  }

  lemma ToleranceAdds(n: nat)
    ensures Times(EPSILON, Shares(n + 1)) == Times(EPSILON, Shares(n)) + EPSILON
  {
    TimesAdds(EPSILON, Shares(n), 1.0);
  }

  /** Shares are conserved, for every accepted log: of each symbol there are as many as at the start, plus those bought,
      minus those sold, up to the tolerance for each time the position was closed; and exactly so in whole shares. */
  lemma {:induction false} SharesAreConserved(l: Ledger, fills: seq<Fill>, s: Symbol)
    requires l.book.Valid() && Accepted(l, fills)
    ensures var off := QuantityOf(Replay(l, fills).book, s)
                       - (QuantityOf(l.book, s) + Bought(fills, s) - Sold(fills, s));
      && -Times(EPSILON, Shares(Closings(l, fills, s))) <= off <= Times(EPSILON, Shares(Closings(l, fills, s)))
      && (WholeBook(l.book) && (forall f :: f in fills ==> Whole(f.quantity)) ==> off == 0.0)
  {
    hide ApplyFill, After, WholeBook, Whole, Closes, Accepted, QuantityOf, Times;
    if fills == [] {
      NothingTimes(EPSILON);
    } else {
      var init, f := fills[..|fills| - 1], fills[|fills| - 1];
      assert fills == init + [f];
      AcceptedInit(l, fills);
      SharesAreConserved(l, init, s);
      ReplayKeepsBook(l, init);
      if WholeBook(l.book) && forall g :: g in fills ==> Whole(g.quantity) {
        WholeSharesLeaveNoDust(l, init);
      }
      SharesStep(Replay(l, init), f, s);
      ToleranceAdds(Closings(l, init, s));
    }
  }

  lemma NothingTimes(x: real)
    ensures Times(x, 0.0) == 0.0
  {
  }
}
