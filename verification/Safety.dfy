/** What legal moves keep over any number of them: the cash floor, the position limit and the shape of each trade. */
module Safety {
  import opened Arithmetic
  import opened Discipline
  import opened Domain
  import opened LedgerLaws
  import opened Ledgers
  import Profits
  import opened Runs
  import opened Stores
  import opened Tally
  import opened Trading

  /** Every position still to be opened may yet cost a commission that cash does not cover. */
  function Floor(c: Config, open: nat): real {
    -EPSILON - Times(c.terms.commission, Shares(c.limits.maxOpenPositions - open))
  }

  lemma FloorFalls(c: Config, open: nat)
    requires open > 0
    ensures Floor(c, open - 1) == Floor(c, open) - c.terms.commission
  {
    var rest := Shares(c.limits.maxOpenPositions - open);
    assert Shares(c.limits.maxOpenPositions - (open - 1)) == rest + 1.0;
    assert c.terms.commission * (rest + 1.0) == c.terms.commission * rest + c.terms.commission;
  }

  ghost predicate LongOnly(b: Book) {
    forall s | s in b.held :: b.held[s].quantity >= 0.0
  }

  /** The safety invariant of an account. */
  ghost predicate Safe(c: Config, l: Ledger) {
    && l.book.Valid() && !l.unlimited && LongOnly(l.book)
    && |l.book.order| <= c.limits.maxOpenPositions
    && l.cash >= Floor(c, |l.book.order|)
  }

  lemma SafeStep(c: Config, l: Ledger, e: Entry)
    requires Safe(c, l) && LegalMove(c, l, e)
    requires c.terms.commission >= 0.0 && e.fill.price >= 0.0
    ensures Safe(c, After(l, e.fill))
  {
    var f, open := e.fill, |l.book.order|;
    if f.side.Buy? {
      NonNegativeProduct(c.terms.commission, Shares(c.limits.maxOpenPositions - (open + 1)));
      assert Floor(c, open + 1) <= -EPSILON;
      hide Floor, Notional;
      AfterKeepsBook(l, f);
    } else {
      NonNegativeProduct(f.quantity, f.price);
      assert Notional(f) >= 0.0;
      WithoutMembers(l.book.order, f.symbol);
      FloorFalls(c, open);
      hide Floor, Notional, Profit;
      SoldOut(l, f);
      AfterKeepsBook(l, f);
    }
  }

  lemma {:induction false} DisciplineKeepsSafe(c: Config, l: Ledger, log: seq<Entry>)
    requires Safe(c, l) && Disciplined(c, l, log)
    requires c.terms.commission >= 0.0 && forall e :: e in log ==> e.fill.price >= 0.0
    ensures Safe(c, End(l, log))
  {
    if log != [] {
      DisciplinedInit(c, l, log);
      DisciplineKeepsSafe(c, l, log[..|log| - 1]);
      EndSnoc(l, log);
      SafeStep(c, End(l, log[..|log| - 1]), log[|log| - 1]);
    }
  }

  /** The position limit on its own, whatever the prices, cash and commissions: no more positions than the limit, or
      than there were to begin with. */
  lemma {:induction false} DisciplineKeepsLimit(c: Config, l: Ledger, log: seq<Entry>)
    requires l.book.Valid() && Disciplined(c, l, log)
    ensures End(l, log).book.Valid()
    ensures |End(l, log).book.order| <= c.limits.maxOpenPositions || |End(l, log).book.order| <= |l.book.order|
  {
    hide Notional, Profit, Disciplined;
    if log != [] {
      var init, e := log[..|log| - 1], log[|log| - 1];
      DisciplinedInit(c, l, log);
      DisciplineKeepsLimit(c, l, init);
      EndSnoc(l, log);
      AfterKeepsBook(End(l, init), e.fill);
      WithoutMembers(End(l, init).book.order, e.fill.symbol);
      if e.fill.side.Sell? {
        SoldOut(End(l, init), e.fill);
      } else {
        BoughtIn(End(l, init), e.fill);
      }
    }
  }

  /** The position limit over every lawful run whose restarts are seamless. */
  lemma PositionLimitOverRuns(c: Config, initial: real, d: Desk, st: Store, evs: seq<Event>)
    requires d.ledger.book.Valid() && Lawful(c, initial, d, st, evs) && Seamless(c, d, st, evs)
    ensures var open := |Run(c, d, st, evs).desk.ledger.book.order|;
      open <= c.limits.maxOpenPositions || open <= |d.ledger.book.order|
  {
    hide Run, Disciplined, Lawful, Seamless, End;
    RunIsDisciplined(c, initial, d, st, evs);
    DisciplineKeepsLimit(c, d.ledger, Run(c, d, st, evs).log);
    SameSize(End(d.ledger, Run(c, d, st, evs).log).book, Run(c, d, st, evs).desk.ledger.book);
  }

  /** Cash floor over every lawful run whose restarts are seamless, in any market with non-negative prices, however they
      change between the quotes of one call: the account never owes more than EPSILON and one commission for each
      position it may still open. */
  lemma CashFloorOverRuns(c: Config, initial: real, d: Desk, st: Store, evs: seq<Event>)
    requires d.ledger.book.Valid() && !d.ledger.unlimited && LongOnly(d.ledger.book) && d.ledger.cash >= 0.0
    requires |d.ledger.book.order| <= c.limits.maxOpenPositions && c.terms.commission >= 0.0
    requires Lawful(c, initial, d, st, evs) && Seamless(c, d, st, evs) && NonNegativePrices(evs)
    ensures var l := Run(c, d, st, evs).desk.ledger;
      && |l.book.order| <= c.limits.maxOpenPositions
      && l.cash >= -EPSILON - Times(c.terms.commission, Shares(c.limits.maxOpenPositions - |l.book.order|))
      && l.cash >= -EPSILON - Times(c.terms.commission, Shares(c.limits.maxOpenPositions))
  {
    hide Times, Run, Lawful, Seamless, NonNegativePrices, LongOnly;
    NonNegativeProduct(c.terms.commission, Shares(c.limits.maxOpenPositions - |d.ledger.book.order|));
    SafeOverRuns(c, initial, d, st, evs);
    var open := |Run(c, d, st, evs).desk.ledger.book.order|;
    ProductMonotone(Shares(c.limits.maxOpenPositions - open), Shares(c.limits.maxOpenPositions), c.terms.commission);
  }

  /** The invariant itself is kept, so runs can be continued. */
  lemma SafeOverRuns(c: Config, initial: real, d: Desk, st: Store, evs: seq<Event>)
    requires Safe(c, d.ledger) && c.terms.commission >= 0.0
    requires Lawful(c, initial, d, st, evs) && Seamless(c, d, st, evs) && NonNegativePrices(evs)
    ensures Safe(c, Run(c, d, st, evs).desk.ledger)
  {
    hide Run, Disciplined, Lawful, Seamless, End, NonNegativePrices, Floor;
    RunIsDisciplined(c, initial, d, st, evs);
    RunPricesAreQuoted(c, initial, d, st, evs);
    DisciplineKeepsSafe(c, d.ledger, Run(c, d, st, evs).log);
    SameSize(End(d.ledger, Run(c, d, st, evs).log).book, Run(c, d, st, evs).desk.ledger.book);
  }

  /** Nothing short: no debt beyond the tolerance and no negative quantity, in the account and in what a restart may
      read. */
  ghost predicate Solvent(name: string, l: Ledger, st: Store) {
    && l.book.Valid() && !l.unlimited && l.cash >= -EPSILON && LongOnly(l.book) && SolventTables(name, st)
  }

  ghost predicate SolventTables(name: string, st: Store) {
    && (forall s | (name, s) in st.rows :: st.rows[(name, s)].quantity >= 0.0)
    && (forall s | s in st.snapshots && s.strategyName == name :: s.account.cash >= -EPSILON)
  }

  lemma SolventMove(c: Config, l: Ledger, e: Entry)
    requires l.book.Valid() && !l.unlimited && l.cash >= -EPSILON && LongOnly(l.book)
    requires LegalMove(c, l, e) && c.terms.commission <= 0.0 && e.fill.price >= 0.0
    ensures var l' := After(l, e.fill);
      l'.book.Valid() && !l'.unlimited && l'.cash >= -EPSILON && LongOnly(l'.book)
  {
    AfterKeepsBook(l, e.fill);
    if e.fill.side.Buy? {
      hide Notional;
      BoughtIn(l, e.fill);
    } else {
      NonNegativeProduct(e.fill.quantity, e.fill.price);
      assert Notional(e.fill) >= 0.0;
      hide Notional, Profit;
      SoldOut(l, e.fill);
    }
  }

  lemma SolventEntry(c: Config, l: Ledger, st: Store, e: Entry)
    requires LegalMove(c, l, e) && FaithfulSnapshot(l, e) && After(l, e.fill).cash >= -EPSILON
    requires SolventTables(c.terms.strategyName, st)
    ensures SolventTables(c.terms.strategyName, SaveEntry(st, c.terms.strategyName, e))
  {
    hide After, ApplyFill, AveragedRow;
    var rows := UpsertPosition(st.rows, e.fill, e.tag);
    if rows.Some? {
      forall s | (c.terms.strategyName, s) in rows.value ensures rows.value[(c.terms.strategyName, s)].quantity >= 0.0 {
        if e.fill.side.Buy? && (e.tag, e.fill.symbol) in st.rows {
          AveragedRowAdds(st.rows[(e.tag, e.fill.symbol)], e.fill);
        }
      }
    }
  }

  lemma AveragedRowAdds(r: Row, f: Fill)
    requires r.quantity + f.quantity != 0.0
    ensures AveragedRow(r, f).quantity == r.quantity + f.quantity
  {
  }

  lemma {:induction false} SolventLog(c: Config, l: Ledger, st: Store, log: seq<Entry>)
    requires Solvent(c.terms.strategyName, l, st) && Disciplined(c, l, log)
    requires c.terms.commission <= 0.0 && forall e | e in log :: e.fill.price >= 0.0
    ensures Solvent(c.terms.strategyName, End(l, log), Persist(st, c.terms.strategyName, log))
  {
    hide LegalMove, After, SaveEntry, Disciplined, FaithfulSnapshot, SolventTables, LongOnly;
    if log != [] {
      var init, e := log[..|log| - 1], log[|log| - 1];
      DisciplinedInit(c, l, log);
      SolventLog(c, l, st, init);
      EndSnoc(l, log);
      SolventMove(c, End(l, init), e);
      SolventEntry(c, End(l, init), Persist(st, c.terms.strategyName, init), e);
    }
  }

  lemma SolventCall(c: Config, initial: real, d: Desk, st: Store, ev: Event)
    requires Solvent(c.terms.strategyName, d.ledger, st) && LawfulEvent(c, initial, st, ev)
    requires c.terms.commission <= 0.0 && initial >= -EPSILON && (!ev.Rebuild? ==> NonNegative(ev.m))
    ensures Solvent(c.terms.strategyName, Call(c, d, ev).desk.ledger, Stored(c, d, st, ev))
  {
    var name := c.terms.strategyName;
    if ev.Rebuild? {
      hide Solvent;
      SolventRestart(name, initial, d.ledger, st, ev.ledger);
    } else {
      hide Disciplined, PricedBy, SnapshotsKept, SolventTables, NonNegative, Persist, LongOnly, RebuiltFrom;
      CallIsOrderly(c, initial, d, st, ev);
      CallPricesAreQuoted(c, initial, d, st, ev);
      SolventLog(c, d.ledger, st, Call(c, d, ev).log);
      if ev.SnapshotNow? && GetAccount(d.ledger, ev.m, ev.k).Some? {
        SolventSnapshot(name, st, GetAccount(d.ledger, ev.m, ev.k).value);
      }
    }
  }

  lemma SolventSnapshot(name: string, st: Store, a: Account)
    requires SolventTables(name, st) && a.cash >= -EPSILON
    ensures SolventTables(name, SaveAccountSnapshot(st, a, name))
  {
  }

  lemma SolventRestart(name: string, initial: real, live: Ledger, st: Store, r: Ledger)
    requires Solvent(name, live, st) && RebuiltFrom(st, name, initial, r) && initial >= -EPSILON
    ensures Solvent(name, r, st)
  {
    if s :| s in st.snapshots && s.strategyName == name {
      var latest :| IsLatest(st.snapshots, name, latest) && latest.account.cash == r.cash;
    }
    forall s | s in r.book.held ensures r.book.held[s].quantity >= 0.0 {
      assert (name, s) in st.rows && r.book.held[s] == HoldingOf(st.rows[(name, s)]);
    }
  }

  /** Without commissions no condition on restarts is needed: in every lawful run, restarts, forced exits and exceptions
      included, cash never falls below the tolerance. */
  lemma {:induction false} FreeTradingStaysSolvent(c: Config, initial: real, d: Desk, st: Store, evs: seq<Event>)
    requires Solvent(c.terms.strategyName, d.ledger, st) && c.terms.commission <= 0.0 && initial >= -EPSILON
    requires Lawful(c, initial, d, st, evs) && NonNegativePrices(evs)
    ensures Solvent(c.terms.strategyName, Run(c, d, st, evs).desk.ledger, Run(c, d, st, evs).store)
    ensures Run(c, d, st, evs).desk.ledger.cash >= -EPSILON
  {
    hide SolventTables, LongOnly, Call, Stored, NonNegative;
    if evs != [] {
      var init := evs[..|evs| - 1];
      LawfulInit(c, initial, d, st, evs);
      FreeTradingStaysSolvent(c, initial, d, st, init);
      SolventCall(c, initial, Run(c, d, st, init).desk, Run(c, d, st, init).store, evs[|evs| - 1]);
    }
  }

  function FillsOf(log: seq<Entry>, s: Symbol): seq<Fill> {
    if log == [] then []
    else
      var f := log[|log| - 1].fill;
      FillsOf(log[..|log| - 1], s) + (if f.symbol == s then [f] else [])
  }

  /** BUY, SELL, BUY, ...; whole shares; each sell disposes of exactly what the buy before it bought. */
  ghost predicate RoundTrips(fs: seq<Fill>) {
    forall i | 0 <= i < |fs| :: InTurn(fs, i)
  }

  ghost predicate InTurn(fs: seq<Fill>, i: nat)
    requires i < |fs|
  {
    && Whole(fs[i].quantity) && fs[i].quantity >= 1.0
    && (i % 2 == 0 ==> fs[i].side.Buy?)
    && (i % 2 == 1 ==> fs[i].side.Sell? && fs[i].quantity == fs[i - 1].quantity)
  }

  /** What is held is the last buy, untouched. */
  ghost predicate HoldsLastBuy(b: Book, s: Symbol, fs: seq<Fill>) {
    && (s in b.held <==> |fs| % 2 == 1)
    && (s in b.held ==>
          var f := fs[|fs| - 1];
          b.held[s] == Holding(f.quantity, f.price, f.timestamp))
  }

  lemma RoundTripStep(c: Config, l: Ledger, e: Entry, s: Symbol, fs: seq<Fill>)
    requires l.book.Valid() && LegalMove(c, l, e) && RoundTrips(fs) && HoldsLastBuy(l.book, s, fs)
    ensures var fs' := fs + (if e.fill.symbol == s then [e.fill] else []);
      RoundTrips(fs') && HoldsLastBuy(After(l, e.fill).book, s, fs')
  {
    hide Notional, Profit;
    AfterKeepsBook(l, e.fill);
    if e.fill.symbol == s {
      var fs' := fs + [e.fill];
      if e.fill.side.Sell? {
        SoldOut(l, e.fill);
      } else {
        assert After(l, e.fill).book.held[s] == Holding(e.fill.quantity, e.fill.price, e.fill.timestamp);
      }
      assert e.fill.side.Sell? <==> |fs| % 2 == 1;
      forall i | 0 <= i < |fs'| ensures InTurn(fs', i) {
        if i < |fs| {
          assert InTurn(fs, i);
        } else if i > 0 {
          assert InTurn(fs, i - 1);
        }
      }
    } else {
      assert fs + [] == fs;
    }
  }

  /** A log extends round trips by round trips. */
  lemma {:induction false} LogRoundTrips(c: Config, l: Ledger, log: seq<Entry>, s: Symbol, fs: seq<Fill>)
    requires l.book.Valid() && Disciplined(c, l, log) && RoundTrips(fs) && HoldsLastBuy(l.book, s, fs)
    ensures RoundTrips(fs + FillsOf(log, s)) && HoldsLastBuy(End(l, log).book, s, fs + FillsOf(log, s))
    ensures End(l, log).book.Valid()
  {
    hide RoundTrips, HoldsLastBuy, LegalMove, Disciplined, After;
    if log == [] {
      assert fs + FillsOf(log, s) == fs;
    } else {
      hide End;
      var init, e := log[..|log| - 1], log[|log| - 1];
      DisciplinedInit(c, l, log);
      LogRoundTrips(c, l, init, s, fs);
      EndSnoc(l, log);
      RoundTripStep(c, End(l, init), e, s, fs + FillsOf(init, s));
      AfterKeepsBook(End(l, init), e.fill);
      assert fs + FillsOf(log, s) == fs + FillsOf(init, s) + (if e.fill.symbol == s then [e.fill] else []);
    }
  }

  lemma TradesAreRoundTrips(c: Config, l: Ledger, log: seq<Entry>, s: Symbol)
    requires l.book == EMPTY_BOOK && Disciplined(c, l, log)
    ensures RoundTrips(FillsOf(log, s)) && HoldsLastBuy(End(l, log).book, s, FillsOf(log, s))
    ensures End(l, log).book.Valid()
  {
    LogRoundTrips(c, l, log, s, []);
    assert [] + FillsOf(log, s) == FillsOf(log, s);
  }

  /** A position that its last buy does not explain: the next fill of the symbol is bound to be out of turn. */
  ghost predicate OutOfTurn(b: Book, s: Symbol, fs: seq<Fill>) {
    s in b.held && (|fs| % 2 == 1 ==> b.held[s].quantity > fs[|fs| - 1].quantity)
  }

  lemma OutOfTurnMove(c: Config, l: Ledger, e: Entry, s: Symbol, fs: seq<Fill>)
    requires l.book.Valid() && LegalMove(c, l, e) && OutOfTurn(l.book, s, fs)
    ensures e.fill.symbol != s ==> OutOfTurn(After(l, e.fill).book, s, fs)
    ensures e.fill.symbol == s ==> !RoundTrips(fs + [e.fill])
  {
    AfterKeepsBook(l, e.fill);
    hide After, ApplyFill;
    if e.fill.symbol == s {
      assert !InTurn(fs + [e.fill], |fs|);
    }
  }

  lemma BrokenStaysBroken(fs: seq<Fill>, gs: seq<Fill>)
    requires !RoundTrips(fs)
    ensures !RoundTrips(fs + gs)
  {
    var i :| 0 <= i < |fs| && !InTurn(fs, i);
    assert !InTurn(fs + gs, i);
  }

  lemma {:induction false} LogOutOfTurn(c: Config, l: Ledger, log: seq<Entry>, s: Symbol, fs: seq<Fill>)
    requires l.book.Valid() && Disciplined(c, l, log) && OutOfTurn(l.book, s, fs)
    ensures FillsOf(log, s) == [] ==> OutOfTurn(End(l, log).book, s, fs)
    ensures FillsOf(log, s) != [] ==> !RoundTrips(fs + FillsOf(log, s))
    ensures End(l, log).book.Valid()
  {
    hide RoundTrips, OutOfTurn, LegalMove, Disciplined, After;
    if log != [] {
      hide End;
      var init, e := log[..|log| - 1], log[|log| - 1];
      DisciplinedInit(c, l, log);
      LogOutOfTurn(c, l, init, s, fs);
      EndSnoc(l, log);
      AfterKeepsBook(End(l, init), e.fill);
      var last := if e.fill.symbol == s then [e.fill] else [];
      assert fs + FillsOf(log, s) == fs + FillsOf(init, s) + last;
      if FillsOf(init, s) == [] {
        OutOfTurnMove(c, End(l, init), e, s, fs);
        assert fs + [] == fs;
      } else {
        BrokenStaysBroken(fs + FillsOf(init, s), last);
      }
    }
  }

  ghost predicate SameHolding(a: Book, b: Book, s: Symbol) {
    && (s in a.held <==> s in b.held)
    && (s in a.held && s in b.held ==> a.held[s] == b.held[s])
  }

  /** The restart at `i` resumes with another holding of `s` than the live one. */
  ghost predicate Disturbs(c: Config, d: Desk, st: Store, evs: seq<Event>, i: nat, s: Symbol)
    requires i < |evs|
  {
    evs[i].Rebuild? && !SameHolding(Run(c, d, st, evs[..i]).desk.ledger.book, evs[i].ledger.book, s)
  }

  /** Restarts that change a holding only ever add to it. */
  ghost predicate OnlyAdds(c: Config, d: Desk, st: Store, evs: seq<Event>, s: Symbol) {
    forall i | 0 <= i < |evs| && Disturbs(c, d, st, evs, i, s) ::
      AddsTo(Run(c, d, st, evs[..i]).desk.ledger.book, evs[i].ledger.book, s)
  }

  ghost predicate AddsTo(live: Book, rebuilt: Book, s: Symbol) {
    s in rebuilt.held && rebuilt.held[s].quantity > QuantityOf(live, s)
  }

  /** No fill of `s` since the first `i` events. */
  ghost predicate QuietSince(c: Config, d: Desk, st: Store, evs: seq<Event>, i: nat, s: Symbol)
    requires i <= |evs|
  {
    FillsOf(Run(c, d, st, evs).log, s) == FillsOf(Run(c, d, st, evs[..i]).log, s)
  }

  ghost predicate Undisturbed(c: Config, d: Desk, st: Store, evs: seq<Event>, s: Symbol) {
    forall i | 0 <= i < |evs| :: !Disturbs(c, d, st, evs, i, s)
  }

  /** Since every restart that changed the holding of `s` the symbol has not traded. */
  ghost predicate Untouched(c: Config, d: Desk, st: Store, evs: seq<Event>, s: Symbol) {
    forall i | 0 <= i < |evs| && Disturbs(c, d, st, evs, i, s) :: QuietSince(c, d, st, evs, i, s)
  }

  lemma {:induction false} FillsOfAppend(a: seq<Entry>, b: seq<Entry>, s: Symbol)
    ensures FillsOf(a + b, s) == FillsOf(a, s) + FillsOf(b, s)
  {
    if b == [] {
      assert a + b == a;
    } else {
      FillsOfAppend(a, b[..|b| - 1], s);
      assert (a + b)[..|a + b| - 1] == a + b[..|b| - 1];
    }
  }

  lemma {:induction false} FillsGrow(c: Config, d: Desk, st: Store, evs: seq<Event>, n: nat, s: Symbol)
    requires n <= |evs|
    ensures FillsOf(Run(c, d, st, evs[..n]).log, s) <= FillsOf(Run(c, d, st, evs).log, s)
    decreases |evs|
  {
    hide Call, Stored, FillsOf;
    if n == |evs| {
      assert evs[..n] == evs;
    } else {
      var init := evs[..|evs| - 1];
      assert init[..n] == evs[..n];
      FillsGrow(c, d, st, init, n, s);
      FillsOfAppend(Run(c, d, st, init).log, Call(c, Run(c, d, st, init).desk, evs[|evs| - 1]).log, s);
    }
  }

  lemma DisturbsInit(c: Config, d: Desk, st: Store, evs: seq<Event>, s: Symbol)
    requires evs != []
    ensures var init := evs[..|evs| - 1];
      && (Undisturbed(c, d, st, evs, s)
          <==> Undisturbed(c, d, st, init, s) && !Disturbs(c, d, st, evs, |evs| - 1, s))
      && (OnlyAdds(c, d, st, evs, s) ==> OnlyAdds(c, d, st, init, s))
      && (forall i | 0 <= i < |init| :: Disturbs(c, d, st, init, i, s) <==> Disturbs(c, d, st, evs, i, s))
  {
    hide Run, SameHolding, AddsTo;
    var init, n := evs[..|evs| - 1], |evs| - 1;
    forall i | 0 <= i < n
      ensures Disturbs(c, d, st, init, i, s) <==> Disturbs(c, d, st, evs, i, s)
      ensures evs[i].Rebuild? ==> (AddsTo(Run(c, d, st, init[..i]).desk.ledger.book, init[i].ledger.book, s)
                                   <==> AddsTo(Run(c, d, st, evs[..i]).desk.ledger.book, evs[i].ledger.book, s)) {
      assert init[..i] == evs[..i] && init[i] == evs[i];
    }
    assert Undisturbed(c, d, st, evs, s) ==> !Disturbs(c, d, st, evs, n, s);
    hide Disturbs;
    if Undisturbed(c, d, st, init, s) && !Disturbs(c, d, st, evs, n, s) {
      forall i | 0 <= i < |evs| ensures !Disturbs(c, d, st, evs, i, s) {
        assert i < n ==> !Disturbs(c, d, st, init, i, s);
      }
    }
  }

  /** What one more event traded of a symbol. */
  function TradedLast(c: Config, d: Desk, st: Store, evs: seq<Event>, s: Symbol): seq<Fill>
    requires evs != []
  {
    FillsOf(Call(c, Run(c, d, st, evs[..|evs| - 1]).desk, evs[|evs| - 1]).log, s)
  }

  lemma FillsNext(c: Config, d: Desk, st: Store, evs: seq<Event>, s: Symbol)
    requires evs != []
    ensures FillsOf(Run(c, d, st, evs).log, s)
         == FillsOf(Run(c, d, st, evs[..|evs| - 1]).log, s) + TradedLast(c, d, st, evs, s)
    ensures evs[|evs| - 1].Rebuild? ==> TradedLast(c, d, st, evs, s) == []
  {
    var before := Run(c, d, st, evs[..|evs| - 1]);
    FillsOfAppend(before.log, Call(c, before.desk, evs[|evs| - 1]).log, s);
    hide Stored;
  }

  lemma QuietNext(c: Config, d: Desk, st: Store, evs: seq<Event>, i: nat, s: Symbol)
    requires i < |evs|
    ensures QuietSince(c, d, st, evs, i, s)
       <==> QuietSince(c, d, st, evs[..|evs| - 1], i, s) && TradedLast(c, d, st, evs, s) == []
  {
    hide Run, FillsOf, TradedLast;
    var init := evs[..|evs| - 1];
    assert init[..i] == evs[..i];
    FillsNext(c, d, st, evs, s);
    FillsGrow(c, d, st, init, i, s);
  }

  /** One more event: what it does to the condition. */
  lemma UntouchedStep(c: Config, d: Desk, st: Store, evs: seq<Event>, s: Symbol)
    requires evs != []
    ensures var init, more := evs[..|evs| - 1], TradedLast(c, d, st, evs, s);
      Untouched(c, d, st, evs, s) <==> Untouched(c, d, st, init, s) && (more == [] || Undisturbed(c, d, st, init, s))
  {
    hide Disturbs, QuietSince, TradedLast, OnlyAdds;
    var init, n := evs[..|evs| - 1], |evs| - 1;
    DisturbsInit(c, d, st, evs, s);
    forall i | 0 <= i < |evs|
      ensures QuietSince(c, d, st, evs, i, s)
         <==> QuietSince(c, d, st, init, i, s) && TradedLast(c, d, st, evs, s) == [] {
      QuietNext(c, d, st, evs, i, s);
    }
    QuietNow(c, d, st, init, s);
    if Disturbs(c, d, st, evs, n, s) {
      DisturbsIsRebuild(c, d, st, evs, n, s);
      FillsNext(c, d, st, evs, s);
    }
  }

  lemma QuietNow(c: Config, d: Desk, st: Store, evs: seq<Event>, s: Symbol)
    ensures QuietSince(c, d, st, evs, |evs|, s)
  {
    assert evs[..|evs|] == evs;
  }

  lemma DisturbsIsRebuild(c: Config, d: Desk, st: Store, evs: seq<Event>, i: nat, s: Symbol)
    requires i < |evs| && Disturbs(c, d, st, evs, i, s)
    ensures evs[i].Rebuild?
  {
  }

  lemma CallLogRoundTrips(c: Config, initial: real, before: Outcome, ev: Event, s: Symbol, fs: seq<Fill>)
    requires before.desk.ledger.book.Valid() && LawfulEvent(c, initial, before.store, ev) && !ev.Rebuild?
    ensures var step := Call(c, before.desk, ev);
      && (RoundTrips(fs) && HoldsLastBuy(before.desk.ledger.book, s, fs) ==>
            && RoundTrips(fs + FillsOf(step.log, s))
            && HoldsLastBuy(step.desk.ledger.book, s, fs + FillsOf(step.log, s)))
      && (OutOfTurn(before.desk.ledger.book, s, fs) ==>
            && (FillsOf(step.log, s) == [] ==> OutOfTurn(step.desk.ledger.book, s, fs))
            && (FillsOf(step.log, s) != [] ==> !RoundTrips(fs + FillsOf(step.log, s))))
  {
    hide Call, RoundTrips, HoldsLastBuy, OutOfTurn, Disciplined, FillsOf, End;
    var step := Call(c, before.desk, ev);
    CallIsOrderly(c, initial, before.desk, before.store, ev);
    if RoundTrips(fs) && HoldsLastBuy(before.desk.ledger.book, s, fs) {
      LogRoundTrips(c, before.desk.ledger, step.log, s, fs);
    }
    if OutOfTurn(before.desk.ledger.book, s, fs) {
      LogOutOfTurn(c, before.desk.ledger, step.log, s, fs);
    }
  }

  lemma RestartTurns(live: Book, rebuilt: Book, s: Symbol, fs: seq<Fill>)
    requires SameHolding(live, rebuilt, s) || AddsTo(live, rebuilt, s)
    ensures HoldsLastBuy(live, s, fs) && SameHolding(live, rebuilt, s) ==> HoldsLastBuy(rebuilt, s, fs)
    ensures HoldsLastBuy(live, s, fs) && !SameHolding(live, rebuilt, s) ==> OutOfTurn(rebuilt, s, fs)
    ensures OutOfTurn(live, s, fs) ==> OutOfTurn(rebuilt, s, fs)
  {
  }

  /** The fills of a symbol are round trips if and only if it has not traded since any restart that changed its holding;
      without such a restart what is held is the last buy. */
  lemma {:induction false} RoundTripsIffUntouched(c: Config, initial: real, d: Desk, st: Store, evs: seq<Event>,
                                                  s: Symbol)
    requires d.ledger.book == EMPTY_BOOK && Lawful(c, initial, d, st, evs) && OnlyAdds(c, d, st, evs, s)
    ensures var after, fs := Run(c, d, st, evs), FillsOf(Run(c, d, st, evs).log, s);
      && (RoundTrips(fs) <==> Untouched(c, d, st, evs, s))
      && (Undisturbed(c, d, st, evs, s) ==> HoldsLastBuy(after.desk.ledger.book, s, fs))
      && (Untouched(c, d, st, evs, s) && !Undisturbed(c, d, st, evs, s) ==>
            OutOfTurn(after.desk.ledger.book, s, fs))
  {
    hide Stored, Call, OnlyAdds, Lawful;
    if evs == [] {
      assert Run(c, d, st, evs) == Outcome(d, st, [], false);
    } else {
      hide RoundTrips, HoldsLastBuy, OutOfTurn, Untouched, Undisturbed, FillsOf;
      var init, ev := evs[..|evs| - 1], evs[|evs| - 1];
      var before := Run(c, d, st, init);
      LawfulInit(c, initial, d, st, evs);
      DisturbsInit(c, d, st, evs, s);
      RoundTripsIffUntouched(c, initial, d, st, init, s);
      RunKeepsBook(c, initial, d, st, init);
      UntouchedStep(c, d, st, evs, s);
      FillsNext(c, d, st, evs, s);
      assert Run(c, d, st, evs).desk == Call(c, before.desk, ev).desk;
      hide Run;
      var fs, more := FillsOf(before.log, s), FillsOf(Call(c, before.desk, ev).log, s);
      if ev.Rebuild? {
        RestartStep(c, d, st, evs, s);
        assert fs + more == fs;
      } else {
        CallLogRoundTrips(c, initial, before, ev, s, fs);
        NotDisturbed(c, d, st, evs, |init|, s);
        if !RoundTrips(fs) {
          BrokenStaysBroken(fs, more);
        }
        if more == [] {
          assert fs + more == fs;
        }
        if Undisturbed(c, d, st, init, s) {
          UndisturbedIsUntouched(c, d, st, init, s);
        }
      }
    }
  }

  lemma UndisturbedIsUntouched(c: Config, d: Desk, st: Store, evs: seq<Event>, s: Symbol)
    requires Undisturbed(c, d, st, evs, s)
    ensures Untouched(c, d, st, evs, s)
  {
  }

  lemma NotDisturbed(c: Config, d: Desk, st: Store, evs: seq<Event>, i: nat, s: Symbol)
    requires i < |evs| && !evs[i].Rebuild?
    ensures !Disturbs(c, d, st, evs, i, s)
  {
  }

  lemma RestartStep(c: Config, d: Desk, st: Store, evs: seq<Event>, s: Symbol)
    requires evs != [] && evs[|evs| - 1].Rebuild? && OnlyAdds(c, d, st, evs, s)
    ensures var init, ev := evs[..|evs| - 1], evs[|evs| - 1];
      var live, fs := Run(c, d, st, init).desk.ledger.book, FillsOf(Run(c, d, st, init).log, s);
      && FillsOf(Call(c, Run(c, d, st, init).desk, ev).log, s) == []
      && Call(c, Run(c, d, st, init).desk, ev).desk.ledger == ev.ledger
      && (HoldsLastBuy(live, s, fs) && !Disturbs(c, d, st, evs, |init|, s) ==> HoldsLastBuy(ev.ledger.book, s, fs))
      && (HoldsLastBuy(live, s, fs) && Disturbs(c, d, st, evs, |init|, s) ==> OutOfTurn(ev.ledger.book, s, fs))
      && (OutOfTurn(live, s, fs) ==> OutOfTurn(ev.ledger.book, s, fs))
  {
    hide Run, SameHolding, AddsTo, HoldsLastBuy, OutOfTurn;
    var init := evs[..|evs| - 1];
    RestartTurns(Run(c, d, st, init).desk.ledger.book, evs[|evs| - 1].ledger.book, s,
                 FillsOf(Run(c, d, st, init).log, s));
  }

  /** So every lawful run from an empty account whose restarts are seamless trades in round trips, symbol by symbol. */
  lemma RunsTradeInRoundTrips(c: Config, initial: real, d: Desk, st: Store, evs: seq<Event>, s: Symbol)
    requires d.ledger.book == EMPTY_BOOK && Lawful(c, initial, d, st, evs) && Seamless(c, d, st, evs)
    ensures RoundTrips(FillsOf(Run(c, d, st, evs).log, s))
    ensures HoldsLastBuy(Run(c, d, st, evs).desk.ledger.book, s, FillsOf(Run(c, d, st, evs).log, s))
  {
    hide Run, Lawful, RoundTrips, FillsOf, HoldsLastBuy, OutOfTurn, AddsTo;
    forall i | 0 <= i < |evs| ensures !Disturbs(c, d, st, evs, i, s) {
    }
    UndisturbedIsUntouched(c, d, st, evs, s);
    RoundTripsIffUntouched(c, initial, d, st, evs, s);
  }

  /** What a ledger is worth at cost. */
  function Booked(l: Ledger): real {
    l.cash + CostBasis(l.book)
  }

  /** Legal moves leave no dust: a sell disposes of the whole position. */
  lemma LegalMovesLeaveNoDust(c: Config, l: Ledger, e: Entry)
    requires LegalMove(c, l, e)
    ensures Residue(l, e.fill) == 0.0
  {
    hide ApplyFill;
  }

  lemma {:induction false} LogBalances(c: Config, l: Ledger, log: seq<Entry>)
    requires l.book.Valid() && Disciplined(c, l, log)
    ensures Booked(End(l, log))
         == Booked(l) + (End(l, log).realizedPl - l.realizedPl) - BuyCommissions(Fills(log))
    ensures End(l, log).book.Valid()
  {
    hide LegalMove, After, Disciplined, CostBasis, Residue;
    if log == [] {
      assert Fills(log) == [];
    } else {
      hide End, Fills;
      var init, e := log[..|log| - 1], log[|log| - 1];
      DisciplinedInit(c, l, log);
      LogBalances(c, l, init);
      EndSnoc(l, log);
      LegalMovesLeaveNoDust(c, End(l, init), e);
      MovesAreFills(c, End(l, init), e);
      MoneyStep(End(l, init), e.fill);
      AfterKeepsBook(End(l, init), e.fill);
      FillsSnoc(log);
      CommissionsSnoc(Fills(init), e.fill);
    }
  }

  lemma MovesAreFills(c: Config, l: Ledger, e: Entry)
    requires LegalMove(c, l, e)
    ensures ApplyFill(l, e.fill).Filled?
  {
  }

  lemma CommissionsSnoc(fills: seq<Fill>, f: Fill)
    ensures BuyCommissions(fills + [f]) == BuyCommissions(fills) + (if f.side.Buy? then f.commission else 0.0)
  {
    assert (fills + [f])[..|fills|] == fills;
  }

  lemma {:induction false} CommissionsAppend(a: seq<Fill>, b: seq<Fill>)
    ensures BuyCommissions(a + b) == BuyCommissions(a) + BuyCommissions(b)
  {
    if b == [] {
      assert a + b == a;
    } else {
      CommissionsAppend(a, b[..|b| - 1]);
      assert a + b == a + b[..|b| - 1] + [b[|b| - 1]];
      CommissionsSnoc(a + b[..|b| - 1], b[|b| - 1]);
    }
  }

  lemma FillsSnoc(log: seq<Entry>)
    requires log != []
    ensures Fills(log) == Fills(log[..|log| - 1]) + [log[|log| - 1].fill]
  {
  }

  /** What the calls of a run realized. */
  function Realized(c: Config, d: Desk, st: Store, evs: seq<Event>): real {
    if evs == [] then 0.0
    else
      var init, ev := evs[..|evs| - 1], evs[|evs| - 1];
      var before := Run(c, d, st, init).desk;
      Realized(c, d, st, init)
      + (if ev.Rebuild? then 0.0 else Call(c, before, ev).desk.ledger.realizedPl - before.ledger.realizedPl)
  }

  /** What the restarts of a run added out of nothing, or lost: rebuilt worth less live worth. */
  function Restated(c: Config, d: Desk, st: Store, evs: seq<Event>): real {
    if evs == [] then 0.0
    else
      var init, ev := evs[..|evs| - 1], evs[|evs| - 1];
      Restated(c, d, st, init)
      + (if ev.Rebuild? then Booked(ev.ledger) - Booked(Run(c, d, st, init).desk.ledger) else 0.0)
  }

  /** The books of every lawful run, whatever its restarts: cash plus cost basis is what the account started with, plus
      what the sells realized, minus the commissions on buys, plus what the restarts restated, and exactly that. */
  lemma {:induction false} RunsBalance(c: Config, initial: real, d: Desk, st: Store, evs: seq<Event>)
    requires d.ledger.book.Valid() && Lawful(c, initial, d, st, evs)
    ensures Booked(Run(c, d, st, evs).desk.ledger)
         == Booked(d.ledger) + Realized(c, d, st, evs) - BuyCommissions(Fills(Run(c, d, st, evs).log))
            + Restated(c, d, st, evs)
  {
    hide Call, Stored, Booked;
    if evs == [] {
      assert Fills([]) == [];
    } else {
      var init, ev := evs[..|evs| - 1], evs[|evs| - 1];
      var before := Run(c, d, st, init);
      LawfulInit(c, initial, d, st, evs);
      RunsBalance(c, initial, d, st, init);
      RunKeepsBook(c, initial, d, st, init);
      CallBalances(c, initial, before.desk, before.store, ev);
      hide Fills, BuyCommissions;
      FillsAppend(before.log, Call(c, before.desk, ev).log);
      CommissionsAppend(Fills(before.log), Fills(Call(c, before.desk, ev).log));
    }
  }

  lemma CallBalances(c: Config, initial: real, d: Desk, st: Store, ev: Event)
    requires d.ledger.book.Valid() && LawfulEvent(c, initial, st, ev)
    ensures var step := Call(c, d, ev);
      && (!ev.Rebuild? ==>
            Booked(step.desk.ledger) == Booked(d.ledger) + (step.desk.ledger.realizedPl - d.ledger.realizedPl)
                                        - BuyCommissions(Fills(step.log)))
      && (ev.Rebuild? ==> step.desk.ledger == ev.ledger && BuyCommissions(Fills(step.log)) == 0.0)
  {
    if !ev.Rebuild? {
      hide Call, Booked, End, Disciplined;
      CallIsOrderly(c, initial, d, st, ev);
      LogBalances(c, d.ledger, Call(c, d, ev).log);
    }
  }

  /** In particular the books of every lawful run whose restarts are seamless balance exactly. */
  lemma RunsBalanceExactly(c: Config, initial: real, d: Desk, st: Store, evs: seq<Event>)
    requires d.ledger.book.Valid() && Lawful(c, initial, d, st, evs) && Seamless(c, d, st, evs)
    ensures var l, fills := Run(c, d, st, evs).desk.ledger, Fills(Run(c, d, st, evs).log);
      l.cash + CostBasis(l.book)
      == d.ledger.cash + CostBasis(d.ledger.book) + Profits.Sum(Profits.LiveSells(d.ledger, fills))
         - BuyCommissions(fills)
  {
    hide Run, Disciplined, Lawful, Seamless, CostBasis, Replay, Fills;
    var log := Run(c, d, st, evs).log;
    RunIsDisciplined(c, initial, d, st, evs);
    DisciplinedAccepts(c, d.ledger, log);
    LogBalances(c, d.ledger, log);
    Profits.LiveSellsSumToRealized(d.ledger, Fills(log));
    SameCostBasis(End(d.ledger, log), Run(c, d, st, evs).desk.ledger);
  }

  lemma SameCostBasis(a: Ledger, b: Ledger)
    requires SameAccount(a, b)
    ensures CostBasis(a.book) == CostBasis(b.book)
  {
    TotalReordered(a.book.order, b.book.order, Costs(a.book));
  }
}
