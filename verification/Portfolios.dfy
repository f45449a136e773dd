/** The ledger on the heap: `Position` objects shared with whoever asked for the list of positions, and updated in
    place. */
module Portfolios {
  import opened Domain
  import opened Ledgers
  import opened Tally

  class Position {
    const symbol: Symbol
    const openedAt: int
    var quantity: real
    var avgEntryPrice: real

    constructor (symbol: Symbol, quantity: real, avgEntryPrice: real, openedAt: int)
      ensures this.symbol == symbol && AsHolding() == Holding(quantity, avgEntryPrice, openedAt)
    {
      this.symbol, this.openedAt := symbol, openedAt;
      this.quantity, this.avgEntryPrice := quantity, avgEntryPrice;
    }

    function AsHolding(): Holding
      reads this
    {
      Holding(quantity, avgEntryPrice, openedAt)
    }
  }

  /** The return of `apply_fill`, or the exception it raises. */
  datatype Applied = Returned(realized: real) | Raised(error: FillError)

  function AppliedBy(r: FillResult): Applied {
    match r
    case Filled(_, realized) => Returned(realized)
    case Refused(error, _) => Raised(error)
  }

  class Portfolio {
    const unlimited: bool
    var cash: real
    var order: seq<Symbol>
    var positions: map<Symbol, Position>
    var realizedPl: real

    ghost predicate Valid()
      reads this
    {
      && Distinct(order)
      && (forall s :: s in order <==> s in positions)
      && (forall s | s in positions :: positions[s].symbol == s)
    }

    /** The ledger this object stands for. */
    function View(): Ledger
      reads this, positions.Values
    {
      Ledger(cash, unlimited, Book(order, Held(positions)), realizedPl)
    }

    constructor (cash: real, unlimited: bool)
      ensures Valid() && View() == Ledger(cash, unlimited, EMPTY_BOOK, 0.0) && positions == map[]
    {
      this.cash, this.unlimited, realizedPl := cash, unlimited, 0.0;
      order, positions := [], map[];
    }

    /** `portfolio.positions = {p.symbol: p for p in list}`. */
    method Adopt(list: seq<Position>, ghost b: Book)
      requires b.Valid() && Lists(list, b)
      modifies this
      ensures Valid() && View() == old(View()).(book := b)
      ensures forall p | p in positions.Values :: p in list
    {
      order, positions := FromList(list, b);
    }

    /** `positions[p.symbol] = p` for a symbol not yet held. */
    method Open(p: Position)
      requires Valid() && p.symbol !in positions
      modifies this`order, this`positions
      ensures Valid() && positions == old(positions)[p.symbol := p]
      ensures View() == old(View()).(book := Opened(old(View().book), p.symbol, p.AsHolding()))
    {
      order, positions := order + [p.symbol], positions[p.symbol := p];
      assert Held(positions) == old(Held(positions))[p.symbol := p.AsHolding()];
    }

    /** Updates a held position in place. */
    method Resize(s: Symbol, quantity: real, avgEntryPrice: real)
      requires Valid() && s in positions
      modifies positions[s]
      ensures Valid()
      ensures View() == old(View()).(book := Resized(old(View().book), s,
                                       Holding(quantity, avgEntryPrice, positions[s].openedAt)))
      ensures positions[s].AsHolding() == Holding(quantity, avgEntryPrice, positions[s].openedAt)
    {
      positions[s].quantity, positions[s].avgEntryPrice := quantity, avgEntryPrice;
      assert Held(positions) == old(Held(positions))[s := positions[s].AsHolding()];
    }

    /** `del positions[s]`. */
    method Close(s: Symbol)
      requires Valid() && s in positions
      modifies this`order, this`positions
      ensures Valid() && positions == old(positions) - {s}
      ensures View() == old(View()).(book := Closed(old(View().book), s))
    {
      WithoutMembers(order, s);
      order, positions := Without(order, s), positions - {s};
      assert Held(positions) == old(Held(positions)) - {s};
    }

    method ApplyBuy(f: Fill) returns (r: Applied)
      requires Valid() && f.side.Buy?
      modifies this, positions.Values
      ensures Valid() && View() == After(old(View()), f) && r == AppliedBy(Ledgers.ApplyFill(old(View()), f))
      ensures forall p | p in positions.Values :: p in old(positions.Values) || fresh(p)
      ensures forall s | s in positions && s in old(positions) :: positions[s] == old(positions)[s]
    {
      hide Opened, Resized, Held, Distinct;
      var cost := Notional(f) + f.commission;
      if !unlimited && cost > cash + EPSILON {
        return Raised(InsufficientFunds);
      }
      cash := cash - cost;
      if f.symbol !in positions {
        HeldSymbols(positions, f.symbol);
        var bought := new Position(f.symbol, f.quantity, f.price, f.timestamp);
        Open(bought);
      } else {
        HeldSymbols(positions, f.symbol);
        var existing := positions[f.symbol];
        var total := existing.quantity + f.quantity;
        if total == 0.0 {
          return Raised(DivisionByZero);
        }
        ghost var h := existing.AsHolding();
        var avg := (existing.quantity * existing.avgEntryPrice + f.quantity * f.price) / total;
        assert Averaged(h, f.quantity, f.price) == Holding(total, avg, existing.openedAt);
        hide Averaged;
        assert old(View()).book.held[f.symbol] == h;
        Resize(f.symbol, total, avg);
        assert View() == After(old(View()), f);
      }
      return Returned(0.0);
    }

    method ApplySell(f: Fill) returns (r: Applied)
      requires Valid() && f.side.Sell?
      modifies this, positions.Values
      ensures Valid() && View() == After(old(View()), f) && r == AppliedBy(Ledgers.ApplyFill(old(View()), f))
      ensures forall p | p in positions.Values :: p in old(positions.Values)
      ensures forall s | s in positions && s in old(positions) :: positions[s] == old(positions)[s]
    {
      hide Closed, Resized, Held, Distinct;
      HeldSymbols(positions, f.symbol);
      if f.symbol !in positions || positions[f.symbol].quantity < f.quantity - EPSILON {
        return Raised(InsufficientShares);
      }
      var existing := positions[f.symbol];
      assert old(View()).book.held[f.symbol] == existing.AsHolding();
      var realized := Profit(existing.AsHolding(), f);
      hide Profit, Notional;
      cash := cash + (Notional(f) - f.commission);
      realizedPl := realizedPl + realized;
      ghost var rest := Reduced(existing.AsHolding(), f.quantity);
      Resize(f.symbol, existing.quantity - f.quantity, existing.avgEntryPrice);
      assert View().book == Resized(old(View()).book, f.symbol, rest);
      if existing.quantity <= EPSILON {
        ClosedAfterResize(old(View().book), f.symbol, existing.AsHolding());
        Close(f.symbol);
      }
      return Returned(realized);
    }

    /** `apply_fill`: the ledger moves as `Ledgers.ApplyFill` says, exceptions included, and positions that stay are
        the same objects. */
    method ApplyFill(f: Fill) returns (r: Applied)
      requires Valid()
      modifies this, positions.Values
      ensures Valid() && View() == After(old(View()), f) && r == AppliedBy(Ledgers.ApplyFill(old(View()), f))
      ensures forall p | p in positions.Values :: p in old(positions.Values) || fresh(p)
      ensures forall s | s in positions && s in old(positions) :: positions[s] == old(positions)[s]
    {
      if f.side.Buy? {
        r := ApplyBuy(f);
      } else {
        r := ApplySell(f);
      }
    }

    /** The market value of the positions that have a price. */
    method PositionsValue(prices: map<Symbol, real>) returns (total: real)
      requires Valid()
      ensures total == Ledgers.PositionsValue(View().book, prices)
    {
      total := 0.0;
      for i := 0 to |order|
        invariant total == Total(order[..i], Worth(View().book, prices))
      {
        assert order[..i + 1][..i] == order[..i];
        var s := order[i];
        if s in prices {
          total := total + Value(positions[s].AsHolding(), prices[s]);
        }
      }
      assert order[..|order|] == order;
    }
  }

  function Held(positions: map<Symbol, Position>): map<Symbol, Holding>
    reads positions.Values
  {
    map s | s in positions :: positions[s].AsHolding()
  }

  lemma HeldSymbols(positions: map<Symbol, Position>, s: Symbol)
    ensures s in Held(positions) <==> s in positions
    ensures s in positions ==> Held(positions)[s] == positions[s].AsHolding()
  {
  }

  lemma ClosedAfterResize(b: Book, s: Symbol, h: Holding)
    ensures Closed(Resized(b, s, h), s) == Closed(b, s)
  {
  }

  /** A list of position objects that shows a book, in its order. */
  ghost predicate Lists(list: seq<Position>, b: Book)
    reads list
  {
    && |list| == |b.order|
    && forall i | 0 <= i < |list| ::
         list[i].symbol == b.order[i] && b.order[i] in b.held && list[i].AsHolding() == b.held[b.order[i]]
  }

  /** `{p.symbol: p for p in list}`. */
  method FromList(list: seq<Position>, ghost b: Book) returns (order: seq<Symbol>, positions: map<Symbol, Position>)
    requires b.Valid() && Lists(list, b)
    ensures order == b.order && Held(positions) == b.held
    ensures forall s | s in positions :: positions[s].symbol == s && positions[s] in list
  {
    hide Held;
    order, positions := [], map[];
    for i := 0 to |list|
      invariant order == b.order[..i]
      invariant forall s :: s in positions <==> s in b.order[..i]
      invariant forall s | s in positions :: positions[s].symbol == s && positions[s] in list
      invariant forall j | 0 <= j < i :: b.order[j] in positions && positions[b.order[j]] == list[j]
    {
      var symbol := list[i].symbol;
      assert b.order[..i + 1] == b.order[..i] + [symbol];
      assert forall j | 0 <= j < i :: b.order[j] != symbol;
      order, positions := order + [symbol], positions[symbol := list[i]];
    }
    assert b.order[..|list|] == b.order;
    ListedAreHeld(list, b, positions);
  }

  lemma ListedAreHeld(list: seq<Position>, b: Book, positions: map<Symbol, Position>)
    requires b.Valid() && Lists(list, b)
    requires forall s :: s in positions <==> s in b.order
    requires forall j | 0 <= j < |list| :: b.order[j] in positions && positions[b.order[j]] == list[j]
    ensures Held(positions) == b.held
  {
    forall s | s in b.order ensures positions[s].AsHolding() == b.held[s] {
      var j :| 0 <= j < |b.order| && b.order[j] == s;
    }
  }
}
