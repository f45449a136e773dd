/** The position table against the ledger. The rows are kept under the tag of each order, so a forced exit, which
    carries a risk tag, never reaches the row its buy created. */
module Divergence {
  import opened Discipline
  import opened Domain
  import opened Ledgers
  import opened Stores
  import opened Tally
  import opened Trading

  function ForcedSale(e: Entry, s: Symbol): real {
    if e.fill.side.Sell? && e.fill.symbol == s && IsRiskTag(e.tag) then e.fill.quantity else 0.0
  }

  /** How many shares of `s` the risk rules sold in this log. */
  function RiskSold(log: seq<Entry>, s: Symbol): real {
    if log == [] then 0.0 else RiskSold(log[..|log| - 1], s) + ForcedSale(log[|log| - 1], s)
  }

  ghost predicate NoRiskRows(rows: map<Key, Row>) {
    forall key | key in rows :: !IsRiskTag(key.0)
  }

  /** The row of `s` holds what the ledger holds plus what was sold behind the table's back; where nothing was, it
      is the holding itself. */
  ghost predicate Tracks(name: string, b: Book, rows: map<Key, Row>, s: Symbol, sold: real) {
    var key := (name, s);
    && (sold == 0.0 || sold > EPSILON)
    && (s in b.held ==> b.held[s].quantity > EPSILON)
    && (key in rows <==> s in b.held || sold > 0.0)
    && (key in rows ==> rows[key].quantity == QuantityOf(b, s) + sold)
    && (key in rows && sold == 0.0 ==> HoldingOf(rows[key]) == b.held[s])
  }

  ghost predicate InSync(name: string, b: Book, rows: map<Key, Row>) {
    NoRiskRows(rows) && forall s :: Tracks(name, b, rows, s, 0.0)
  }

  ghost predicate OffBy(name: string, b: Book, rows: map<Key, Row>, log: seq<Entry>) {
    NoRiskRows(rows) && forall s :: Tracks(name, b, rows, s, RiskSold(log, s))
  }

  lemma BuyTracks(c: Config, l: Ledger, rows: map<Key, Row>, e: Entry, s: Symbol, sold: real)
    requires l.book.Valid() && LegalMove(c, l, e) && e.fill.side.Buy? && e.fill.symbol == s
    requires Tracks(c.terms.strategyName, l.book, rows, s, sold)
    ensures UpsertPosition(rows, e.fill, e.tag).Some?
    ensures Tracks(c.terms.strategyName, After(l, e.fill).book, UpsertPosition(rows, e.fill, e.tag).value, s, sold)
  {
    hide Notional;
  }

  lemma SellTracks(c: Config, l: Ledger, rows: map<Key, Row>, e: Entry, s: Symbol, sold: real)
    requires l.book.Valid() && LegalMove(c, l, e) && e.fill.side.Sell? && e.fill.symbol == s
    requires NoRiskRows(rows) && !IsRiskTag(c.terms.strategyName)
    requires Tracks(c.terms.strategyName, l.book, rows, s, sold)
    ensures UpsertPosition(rows, e.fill, e.tag).Some?
    ensures Tracks(c.terms.strategyName, After(l, e.fill).book, UpsertPosition(rows, e.fill, e.tag).value, s,
                   sold + ForcedSale(e, s))
  {
    SoldOut(l, e.fill);
    hide ApplyFill, Notional;
  }

  lemma OthersTrack(c: Config, l: Ledger, rows: map<Key, Row>, e: Entry, s: Symbol, sold: real)
    requires l.book.Valid() && e.fill.symbol != s && Tracks(c.terms.strategyName, l.book, rows, s, sold)
    requires UpsertPosition(rows, e.fill, e.tag).Some?
    ensures Tracks(c.terms.strategyName, After(l, e.fill).book, UpsertPosition(rows, e.fill, e.tag).value, s, sold)
    ensures ForcedSale(e, s) == 0.0
  {
    AfterKeepsBook(l, e.fill);
    hide ApplyFill, AveragedRow;
  }

  lemma OffByStep(c: Config, l: Ledger, rows: map<Key, Row>, log: seq<Entry>, e: Entry)
    requires l.book.Valid() && LegalMove(c, l, e) && !IsRiskTag(c.terms.strategyName)
    requires OffBy(c.terms.strategyName, l.book, rows, log)
    ensures UpsertPosition(rows, e.fill, e.tag).Some?
    ensures OffBy(c.terms.strategyName, After(l, e.fill).book, UpsertPosition(rows, e.fill, e.tag).value, log + [e])
    ensures RealForcedSale(e)
  {
    hide Notional;
    var name, s0 := c.terms.strategyName, e.fill.symbol;
    assert Tracks(name, l.book, rows, s0, RiskSold(log, s0));
    if e.fill.side.Buy? {
      BuyTracks(c, l, rows, e, s0, RiskSold(log, s0));
    } else {
      SellTracks(c, l, rows, e, s0, RiskSold(log, s0));
    }
    assert (log + [e])[..|log|] == log;
    var rows' := UpsertPosition(rows, e.fill, e.tag).value;
    hide ApplyFill, AveragedRow;
    forall s ensures Tracks(name, After(l, e.fill).book, rows', s, RiskSold(log + [e], s)) {
      assert Tracks(name, l.book, rows, s, RiskSold(log, s));
      if s != s0 {
        OthersTrack(c, l, rows, e, s, RiskSold(log, s));
      }
    }
  }

  lemma PersistedRows(st: Store, name: string, log: seq<Entry>)
    requires log != []
    requires UpsertPosition(Persist(st, name, log[..|log| - 1]).rows, log[|log| - 1].fill, log[|log| - 1].tag).Some?
    ensures Persist(st, name, log).rows
         == UpsertPosition(Persist(st, name, log[..|log| - 1]).rows, log[|log| - 1].fill, log[|log| - 1].tag).value
  {
    hide UpsertPosition;
  }

  /** A risk tag only ever marks the sale of more than a tolerance of shares. */
  predicate RealForcedSale(e: Entry) {
    IsRiskTag(e.tag) ==> e.fill.side.Sell? && e.fill.quantity > EPSILON
  }

  /** The divergence law, for every disciplined log, whatever was sold behind the table's back earlier: stored quantity
      is ledger quantity plus what the risk rules sold, and no row ever stands under a risk tag. */
  lemma {:induction false} DivergenceLaw(c: Config, l: Ledger, st: Store, earlier: seq<Entry>, log: seq<Entry>)
    requires l.book.Valid() && Disciplined(c, l, log) && !IsRiskTag(c.terms.strategyName)
    requires OffBy(c.terms.strategyName, l.book, st.rows, earlier)
    ensures OffBy(c.terms.strategyName, End(l, log).book, Persist(st, c.terms.strategyName, log).rows, earlier + log)
    ensures End(l, log).book.Valid()
    ensures forall i | 0 <= i < |log| :: RealForcedSale(log[i])
  {
    hide After, UpsertPosition, Tracks, LegalMove, ForcedSale, RealForcedSale, Disciplined;
    if log == [] {
      assert earlier + log == earlier;
    } else {
      hide RiskSold, Persist, OffBy, End;
      var init, e := log[..|log| - 1], log[|log| - 1];
      assert log == init + [e] && earlier + log == earlier + init + [e];
      DisciplinedInit(c, l, log);
      DivergenceLaw(c, l, st, earlier, init);
      EndSnoc(l, log);
      OffByStep(c, End(l, init), Persist(st, c.terms.strategyName, init).rows, earlier + init, e);
      PersistedRows(st, c.terms.strategyName, log);
      AfterKeepsBook(End(l, init), e.fill);
    }
  }

  /** To be in sync is to be off by nothing. */
  lemma InSyncIsOffByNothing(name: string, b: Book, rows: map<Key, Row>)
    ensures InSync(name, b, rows) <==> OffBy(name, b, rows, [])
  {
    hide Tracks;
    forall s ensures Tracks(name, b, rows, s, RiskSold([], s)) <==> Tracks(name, b, rows, s, 0.0) {
      assert RiskSold([], s) == 0.0;
    }
  }

  lemma {:induction false} NoRiskTagsNoSales(log: seq<Entry>, s: Symbol)
    requires forall i | 0 <= i < |log| :: !IsRiskTag(log[i].tag)
    ensures RiskSold(log, s) == 0.0
  {
    if log != [] {
      NoRiskTagsNoSales(log[..|log| - 1], s);
    }
  }

  lemma {:induction false} ForcedSalesCount(log: seq<Entry>, s: Symbol)
    requires forall i | 0 <= i < |log| :: RealForcedSale(log[i])
    ensures RiskSold(log, s) >= 0.0
    ensures forall i | 0 <= i < |log| && log[i].fill.symbol == s && IsRiskTag(log[i].tag) :: RiskSold(log, s) > 0.0
  {
    if log != [] {
      ForcedSalesCount(log[..|log| - 1], s);
    }
  }

  /** The table equals the book exactly when the log has no forced exit. */
  lemma InSyncIffNoForcedExit(name: string, b: Book, rows: map<Key, Row>, log: seq<Entry>)
    requires OffBy(name, b, rows, log) && forall i | 0 <= i < |log| :: RealForcedSale(log[i])
    ensures OpenPositions(rows, name) == b.held <==> forall i | 0 <= i < |log| :: !IsRiskTag(log[i].tag)
  {
    var stored := OpenPositions(rows, name);
    forall s
      ensures s in stored <==> (name, s) in rows
      ensures s in stored ==> stored[s] == HoldingOf(rows[(name, s)])
      ensures Tracks(name, b, rows, s, RiskSold(log, s)) {
    }
    if forall i | 0 <= i < |log| :: !IsRiskTag(log[i].tag) {
      forall s ensures s in stored <==> s in b.held ensures s in stored ==> stored[s] == b.held[s] {
        NoRiskTagsNoSales(log, s);
      }
    } else {
      var i :| 0 <= i < |log| && IsRiskTag(log[i].tag);
      var s := log[i].fill.symbol;
      ForcedSalesCount(log, s);
      assert Tracks(name, b, rows, s, RiskSold(log, s));
      assert s in stored && stored[s].quantity == QuantityOf(b, s) + RiskSold(log, s);
    }
  }

  /** A restart brings back exactly the shares that the risk rules had sold. */
  lemma RestartResurrects(name: string, initial: real, st: Store, live: Book, log: seq<Entry>, l: Ledger, s: Symbol)
    requires OffBy(name, live, st.rows, log) && RebuiltFrom(st, name, initial, l)
    ensures QuantityOf(l.book, s) == QuantityOf(live, s) + RiskSold(log, s)
  {
    assert Tracks(name, live, st.rows, s, RiskSold(log, s));
    assert s in l.book.held <==> (name, s) in st.rows;
  }

  /** A restart starts the table's account afresh: it is in sync with what it brought back. */
  lemma RestartSyncs(name: string, initial: real, st: Store, live: Book, log: seq<Entry>, l: Ledger)
    requires OffBy(name, live, st.rows, log) && RebuiltFrom(st, name, initial, l)
    requires forall i | 0 <= i < |log| :: RealForcedSale(log[i])
    ensures InSync(name, l.book, st.rows)
  {
    forall s ensures Tracks(name, l.book, st.rows, s, 0.0) {
      ForcedSalesCount(log, s);
      assert Tracks(name, live, st.rows, s, RiskSold(log, s));
      assert s in l.book.held <==> (name, s) in st.rows;
      assert s in l.book.held ==> l.book.held[s] == HoldingOf(st.rows[(name, s)]);
    }
  }

  /** The symbols that forced exits of a log sold. */
  function ForcedSymbols(log: seq<Entry>): set<Symbol> {
    set i | 0 <= i < |log| && IsRiskTag(log[i].tag) :: log[i].fill.symbol
  }

  lemma ForcedIffSold(log: seq<Entry>, s: Symbol)
    requires forall i | 0 <= i < |log| :: RealForcedSale(log[i])
    ensures s in ForcedSymbols(log) <==> RiskSold(log, s) > 0.0
    ensures s !in ForcedSymbols(log) ==> RiskSold(log, s) == 0.0
  {
    ForcedSalesCount(log, s);
    if s !in ForcedSymbols(log) {
      NotForcedNotSold(log, s);
    }
  }

  lemma {:induction false} NotForcedNotSold(log: seq<Entry>, s: Symbol)
    requires forall i | 0 <= i < |log| && IsRiskTag(log[i].tag) :: log[i].fill.symbol != s
    ensures RiskSold(log, s) == 0.0
  {
    if log != [] {
      NotForcedNotSold(log[..|log| - 1], s);
    }
  }

  /** How many positions a restart brings back: one for each symbol that is held or was sold by force. */
  lemma RestartedPositions(name: string, initial: real, st: Store, live: Book, log: seq<Entry>, l: Ledger)
    requires OffBy(name, live, st.rows, log) && RebuiltFrom(st, name, initial, l)
    requires forall i | 0 <= i < |log| :: RealForcedSale(log[i])
    ensures l.book.held.Keys == live.held.Keys + ForcedSymbols(log)
    ensures |l.book.order| == |live.held.Keys + ForcedSymbols(log)|
  {
    forall s ensures s in l.book.held <==> s in live.held || s in ForcedSymbols(log) {
      ForcedIffSold(log, s);
      assert Tracks(name, live, st.rows, s, RiskSold(log, s));
      assert s in l.book.held <==> (name, s) in st.rows;
    }
    OrderCounts(l.book.order, l.book.held.Keys);
  }
}
