/** The ledger as a value: cash, an insertion-ordered book of holdings, and realized profit and loss.
    `Portfolios.Portfolio` keeps the same ledger on the heap and is proved against these functions. */
module Ledgers {
  import opened Domain
  import opened Tally

  datatype Holding = Holding(quantity: real, avgEntryPrice: real, openedAt: int)

  /** The `positions` dictionary: its keys in insertion order, and what each one holds. */
  datatype Book = Book(order: seq<Symbol>, held: map<Symbol, Holding>) {
    ghost predicate Valid() {
      Distinct(order) && forall s :: s in order <==> s in held
    }
  }

  const EMPTY_BOOK := Book([], map[])

  /** The three ways a fill changes the book: a key is inserted last, its holding is replaced, or it is deleted. */
  function Opened(b: Book, s: Symbol, h: Holding): Book {
    Book(b.order + [s], b.held[s := h])
  }

  function Resized(b: Book, s: Symbol, h: Holding): Book {
    Book(b.order, b.held[s := h])
  }

  function Closed(b: Book, s: Symbol): Book {
    Book(Without(b.order, s), b.held - {s})
  }

  /** `unlimited` is the scratch ledger's infinite cash; `cash` then only counts what passed through. */
  datatype Ledger = Ledger(cash: real, unlimited: bool, book: Book, realizedPl: real)

  datatype FillError = InsufficientFunds | InsufficientShares | DivisionByZero

  datatype FillResult = Filled(ledger: Ledger, realized: real) | Refused(error: FillError, ledger: Ledger)

  function Value(h: Holding, price: real): real {
    h.quantity * price
  }

  function Gain(h: Holding, price: real): real {
    (price - h.avgEntryPrice) * h.quantity
  }

  function Cost(h: Holding): real {
    h.quantity * h.avgEntryPrice
  }

  function Notional(f: Fill): real {
    f.quantity * f.price
  }

  /** What selling realizes against the average entry price, net of this fill's commission. */
  function Profit(h: Holding, f: Fill): real {
    (f.price - h.avgEntryPrice) * f.quantity - f.commission
  }

  function Reduced(h: Holding, quantity: real): Holding {
    h.(quantity := h.quantity - quantity)
  }

  function Worth(b: Book, prices: map<Symbol, real>): map<Symbol, real> {
    map s | s in b.held && s in prices :: Value(b.held[s], prices[s])
  }

  function Gains(b: Book, prices: map<Symbol, real>): map<Symbol, real> {
    map s | s in b.held && s in prices :: Gain(b.held[s], prices[s])
  }

  function Costs(b: Book): map<Symbol, real> {
    map s | s in b.held :: Cost(b.held[s])
  }

  function PositionsValue(b: Book, prices: map<Symbol, real>): real {
    Total(b.order, Worth(b, prices))
  }

  function UnrealizedPl(b: Book, prices: map<Symbol, real>): real {
    Total(b.order, Gains(b, prices))
  }

  function CostBasis(b: Book): real {
    Total(b.order, Costs(b))
  }

  function Equity(l: Ledger, prices: map<Symbol, real>): real {
    l.cash + PositionsValue(l.book, prices)
  }

  function QuantityOf(b: Book, s: Symbol): real {
    if s in b.held then b.held[s].quantity else 0.0
  }

  function Averaged(h: Holding, quantity: real, price: real): Holding
    requires h.quantity + quantity != 0.0
  {
    var total := h.quantity + quantity;
    h.(quantity := total, avgEntryPrice := (h.quantity * h.avgEntryPrice + quantity * price) / total)
  }

  function ApplyBuy(l: Ledger, f: Fill): FillResult {
    var cost := Notional(f) + f.commission;
    if !l.unlimited && cost > l.cash + EPSILON then Refused(InsufficientFunds, l)
    else
      var paid := l.(cash := l.cash - cost);
      if f.symbol !in l.book.held then
        Filled(paid.(book := Opened(l.book, f.symbol, Holding(f.quantity, f.price, f.timestamp))), 0.0)
      else
        var existing := l.book.held[f.symbol];
        if existing.quantity + f.quantity == 0.0 then Refused(DivisionByZero, paid)
        else Filled(paid.(book := Resized(l.book, f.symbol, Averaged(existing, f.quantity, f.price))), 0.0)
  }

  function ApplySell(l: Ledger, f: Fill): FillResult {
    if f.symbol !in l.book.held || l.book.held[f.symbol].quantity < f.quantity - EPSILON then
      Refused(InsufficientShares, l)
    else
      var existing := l.book.held[f.symbol];
      var realized, rest := Profit(existing, f), Reduced(existing, f.quantity);
      var book := if rest.quantity <= EPSILON then Closed(l.book, f.symbol) else Resized(l.book, f.symbol, rest);
      Filled(l.(cash := l.cash + (Notional(f) - f.commission), book := book, realizedPl := l.realizedPl + realized),
             realized)
  }

  function ApplyFill(l: Ledger, f: Fill): FillResult {
    if f.side.Buy? then ApplyBuy(l, f) else ApplySell(l, f)
  }

  function After(l: Ledger, f: Fill): Ledger {
    ApplyFill(l, f).ledger
  }

  /** The ledger after a whole sequence of fills. */
  function Replay(l: Ledger, fills: seq<Fill>): Ledger {
    if fills == [] then l else After(Replay(l, fills[..|fills| - 1]), fills[|fills| - 1])
  }

  ghost predicate Accepted(l: Ledger, fills: seq<Fill>) {
    forall i | 0 <= i < |fills| :: ApplyFill(Replay(l, fills[..i]), fills[i]).Filled?
  }

  lemma AcceptedInit(l: Ledger, fills: seq<Fill>)
    requires Accepted(l, fills) && fills != []
    ensures Accepted(l, fills[..|fills| - 1])
    ensures ApplyFill(Replay(l, fills[..|fills| - 1]), fills[|fills| - 1]).Filled?
  {
    var init := fills[..|fills| - 1];
    forall i | 0 <= i < |init| ensures ApplyFill(Replay(l, init[..i]), init[i]).Filled? {
      assert init[..i] == fills[..i];
    }
  }

  lemma AfterKeepsBook(l: Ledger, f: Fill)
    requires l.book.Valid()
    ensures After(l, f).book.Valid()
    ensures forall s :: s != f.symbol ==> (s in After(l, f).book.held <==> s in l.book.held)
    ensures forall s :: s != f.symbol && s in l.book.held ==> After(l, f).book.held[s] == l.book.held[s]
  {
    hide Profit, Notional, Averaged;
    WithoutMembers(l.book.order, f.symbol);
  }

  lemma {:induction false} ReplayKeepsBook(l: Ledger, fills: seq<Fill>)
    requires l.book.Valid()
    ensures Replay(l, fills).book.Valid()
  {
    if fills != [] {
      ReplayKeepsBook(l, fills[..|fills| - 1]);
      AfterKeepsBook(Replay(l, fills[..|fills| - 1]), fills[|fills| - 1]);
    }
  }

  lemma {:induction false} ReplayAppend(l: Ledger, a: seq<Fill>, b: seq<Fill>)
    ensures Replay(l, a + b) == Replay(Replay(l, a), b)
  {
    if b == [] {
      assert a + b == a;
    } else {
      ReplayAppend(l, a, b[..|b| - 1]);
      assert (a + b)[..|a + b| - 1] == a + b[..|b| - 1];
    }
  }

  /** How the total of any per-holding weight moves under the three changes of the book. */
  lemma OpenedTotals(b: Book, s: Symbol, h: Holding, prices: map<Symbol, real>)
    requires b.Valid() && s !in b.held
    ensures CostBasis(Opened(b, s, h)) == CostBasis(b) + Cost(h)
    ensures s in prices ==> PositionsValue(Opened(b, s, h), prices) == PositionsValue(b, prices) + Value(h, prices[s])
  {
    var b' := Opened(b, s, h);
    assert forall t | t in b.order :: b'.held[t] == b.held[t];
    TotalAppend(b.order, Costs(b), Costs(b'), s);
    TotalAppend(b.order, Worth(b, prices), Worth(b', prices), s);
  }

  lemma ResizedTotals(b: Book, s: Symbol, h: Holding, prices: map<Symbol, real>)
    requires b.Valid() && s in b.held
    ensures CostBasis(Resized(b, s, h)) == CostBasis(b) - Cost(b.held[s]) + Cost(h)
    ensures s in prices ==> PositionsValue(Resized(b, s, h), prices) ==
                              PositionsValue(b, prices) - Value(b.held[s], prices[s]) + Value(h, prices[s])
  {
    var b' := Resized(b, s, h);
    TotalReplace(b.order, Costs(b), Costs(b'), s);
    TotalReplace(b.order, Worth(b, prices), Worth(b', prices), s);
  }

  lemma ClosedTotals(b: Book, s: Symbol, prices: map<Symbol, real>)
    requires b.Valid() && s in b.held
    ensures CostBasis(Closed(b, s)) == CostBasis(b) - Cost(b.held[s])
    ensures s in prices ==>
              PositionsValue(Closed(b, s), prices) == PositionsValue(b, prices) - Value(b.held[s], prices[s])
  {
    hide Cost, Value;
    var b' := Closed(b, s);
    TotalWithout(b.order, Costs(b), Costs(b'), s);
    TotalWithout(b.order, Worth(b, prices), Worth(b', prices), s);
  }

  /** Equity splits into cash, cost basis and unrealized gain when every held symbol has a price. */
  lemma EquitySplits(l: Ledger, prices: map<Symbol, real>)
    requires l.book.Valid() && l.book.held.Keys <= prices.Keys
    ensures Equity(l, prices) == l.cash + CostBasis(l.book) + UnrealizedPl(l.book, prices)
  {
    var b := l.book;
    forall s | s in b.order ensures At(Worth(b, prices), s) == At(Costs(b), s) + At(Gains(b, prices), s) {
      assert s in b.held && s in prices;
    }
    TotalCombines(b.order, Worth(b, prices), Costs(b), Gains(b, prices));
  }
}
