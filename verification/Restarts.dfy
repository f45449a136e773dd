/** What restarts do to the properties of runs: the exact conditions under which a run with restarts, forced exits and
    exceptions keeps the position limit, trades in round trips, keeps the cash floor and balances its books. */
module Restarts {
  import opened Arithmetic
  import opened Discipline
  import opened Divergence
  import opened Domain
  import opened Ledgers
  import opened Restart
  import opened Runs
  import opened Safety
  import opened Stores
  import opened Tally
  import opened Trading

  /** A run of one engine with its database, from an account in sync with it. */
  ghost predicate Persisted(c: Config, initial: real, d: Desk, st: Store, evs: seq<Event>) {
    && c.terms.persist && !IsRiskTag(c.terms.strategyName)
    && Synced(c, initial, d, st) && Lawful(c, initial, d, st, evs)
  }

  lemma PersistedPrefix(c: Config, initial: real, d: Desk, st: Store, evs: seq<Event>, n: nat)
    requires Persisted(c, initial, d, st, evs) && n <= |evs|
    ensures Persisted(c, initial, d, st, evs[..n])
  {
    hide Synced, Lawful;
    LawfulPrefix(c, initial, d, st, evs, n);
  }

  /** A restart adds to the holding of each symbol that was sold by force, and to no other. */
  lemma RestartHolding(name: string, initial: real, st: Store, live: Book, since: seq<Entry>, r: Ledger, s: Symbol)
    requires OffBy(name, live, st.rows, since) && RealForcedSales(since) && RebuiltFrom(st, name, initial, r)
    ensures s in ForcedSymbols(since) ==> AddsTo(live, r.book, s) && !SameHolding(live, r.book, s)
    ensures s !in ForcedSymbols(since) ==> SameHolding(live, r.book, s)
  {
    ForcedIffSold(since, s);
    hide ForcedSymbols, RiskSold;
    assert Tracks(name, live, st.rows, s, RiskSold(since, s));
    assert s in r.book.held <==> (name, s) in st.rows;
    assert s in r.book.held ==> r.book.held[s] == HoldingOf(st.rows[(name, s)]);
  }

  /** What was sold by force since the restart before, at the restart at `i`. */
  function ForcedAt(c: Config, d: Desk, st: Store, evs: seq<Event>, i: nat): set<Symbol>
    requires i < |evs|
  {
    ForcedSymbols(LogSince(c, d, st, evs[..i]))
  }

  lemma RestartAt(c: Config, initial: real, d: Desk, st: Store, evs: seq<Event>, i: nat)
    requires Persisted(c, initial, d, st, evs) && i < |evs| && evs[i].Rebuild?
    ensures var live, rebuilt := Run(c, d, st, evs[..i]).desk.ledger.book, evs[i].ledger.book;
      && |rebuilt.order| == |live.held.Keys + ForcedAt(c, d, st, evs, i)|
      && forall s :: && (s in ForcedAt(c, d, st, evs, i) ==> AddsTo(live, rebuilt, s) && !SameHolding(live, rebuilt, s))
                     && (s !in ForcedAt(c, d, st, evs, i) ==> SameHolding(live, rebuilt, s))
  {
    hide Run, LogSince, OffBy, RebuiltFrom, Synced, AddsTo, SameHolding, ForcedSymbols, RealForcedSales;
    var before, since := Run(c, d, st, evs[..i]), LogSince(c, d, st, evs[..i]);
    var name, r := c.terms.strategyName, evs[i].ledger;
    PersistedPrefix(c, initial, d, st, evs, i);
    RunTracks(c, initial, d, st, evs[..i]);
    assert LawfulEvent(c, initial, before.store, evs[i]);
    RunDiverges(c, initial, d, st, evs[..i]);
    forall s ensures s in ForcedSymbols(since) ==>
                       AddsTo(before.desk.ledger.book, r.book, s) && !SameHolding(before.desk.ledger.book, r.book, s)
             ensures s !in ForcedSymbols(since) ==> SameHolding(before.desk.ledger.book, r.book, s) {
      RestartHolding(name, initial, before.store, before.desk.ledger.book, since, r, s);
    }
  }

  function OpenAt(c: Config, d: Desk, st: Store, evs: seq<Event>, n: nat): nat
    requires n <= |evs|
  {
    |Run(c, d, st, evs[..n]).desk.ledger.book.order|
  }

  /** How many positions a restart at `i` brings back: those held and those sold by force. */
  function BackAt(c: Config, d: Desk, st: Store, evs: seq<Event>, i: nat): nat
    requires i < |evs|
  {
    |Run(c, d, st, evs[..i]).desk.ledger.book.held.Keys + ForcedAt(c, d, st, evs, i)|
  }

  lemma RestartOpens(c: Config, initial: real, d: Desk, st: Store, evs: seq<Event>, i: nat)
    requires Persisted(c, initial, d, st, evs) && i < |evs| && evs[i].Rebuild?
    ensures OpenAt(c, d, st, evs, i + 1) == BackAt(c, d, st, evs, i)
  {
    hide Persisted, LogSince, ForcedAt, AddsTo, SameHolding;
    RestartAt(c, initial, d, st, evs, i);
    assert evs[..i + 1][..i] == evs[..i];
  }

  lemma CallKeepsLimit(c: Config, initial: real, d: Desk, st: Store, evs: seq<Event>, i: nat)
    requires d.ledger.book.Valid() && Lawful(c, initial, d, st, evs) && i < |evs| && !evs[i].Rebuild?
    ensures OpenAt(c, d, st, evs, i + 1) <= c.limits.maxOpenPositions
            || OpenAt(c, d, st, evs, i + 1) <= OpenAt(c, d, st, evs, i)
  {
    hide Call, Stored, Disciplined, End;
    var before := Run(c, d, st, evs[..i]);
    LawfulPrefix(c, initial, d, st, evs, i);
    RunKeepsBook(c, initial, d, st, evs[..i]);
    assert LawfulEvent(c, initial, before.store, evs[i]);
    CallIsOrderly(c, initial, before.desk, before.store, evs[i]);
    DisciplineKeepsLimit(c, before.desk.ledger, Call(c, before.desk, evs[i]).log);
    assert evs[..i + 1][..i] == evs[..i];
  }

  lemma {:induction false} LimitKept(c: Config, initial: real, d: Desk, st: Store, evs: seq<Event>, n: nat)
    requires Persisted(c, initial, d, st, evs) && n <= |evs|
    requires |d.ledger.book.order| <= c.limits.maxOpenPositions
    requires forall i | 0 <= i < |evs| && evs[i].Rebuild? :: BackAt(c, d, st, evs, i) <= c.limits.maxOpenPositions
    ensures OpenAt(c, d, st, evs, n) <= c.limits.maxOpenPositions
  {
    if n == 0 {
      assert evs[..0] == [];
    } else {
      hide OpenAt, BackAt, Lawful;
      LimitKept(c, initial, d, st, evs, n - 1);
      if evs[n - 1].Rebuild? {
        RestartOpens(c, initial, d, st, evs, n - 1);
      } else {
        SyncedBook(c, initial, d, st);
        CallKeepsLimit(c, initial, d, st, evs, n - 1);
      }
    }
  }

  /** The position limit, exactly: it holds at every point of a run if and only if at each restart the symbols held and
      those sold by force since the restart before are together within it. */
  lemma PositionLimitIff(c: Config, initial: real, d: Desk, st: Store, evs: seq<Event>)
    requires Persisted(c, initial, d, st, evs) && |d.ledger.book.order| <= c.limits.maxOpenPositions
    ensures (forall n | 0 <= n <= |evs| :: OpenAt(c, d, st, evs, n) <= c.limits.maxOpenPositions)
       <==> forall i | 0 <= i < |evs| && evs[i].Rebuild? :: BackAt(c, d, st, evs, i) <= c.limits.maxOpenPositions
  {
    hide Persisted, OpenAt, BackAt;
    if forall i | 0 <= i < |evs| && evs[i].Rebuild? :: BackAt(c, d, st, evs, i) <= c.limits.maxOpenPositions {
      forall n | 0 <= n <= |evs| ensures OpenAt(c, d, st, evs, n) <= c.limits.maxOpenPositions {
        LimitKept(c, initial, d, st, evs, n);
      }
    } else {
      var i :| 0 <= i < |evs| && evs[i].Rebuild? && BackAt(c, d, st, evs, i) > c.limits.maxOpenPositions;
      RestartOpens(c, initial, d, st, evs, i);
      assert OpenAt(c, d, st, evs, i + 1) > c.limits.maxOpenPositions;
    }
  }

  /** Round trips, exactly: the fills of a symbol are BUY, SELL, BUY, ..., each SELL disposing of exactly the BUY before
      it, if and only if the symbol has not traded since any restart before which it had been sold by force. */
  lemma RoundTripsIff(c: Config, initial: real, d: Desk, st: Store, evs: seq<Event>, s: Symbol)
    requires Persisted(c, initial, d, st, evs) && d.ledger.book == EMPTY_BOOK
    ensures RoundTrips(FillsOf(Run(c, d, st, evs).log, s))
       <==> forall i | 0 <= i < |evs| && evs[i].Rebuild? && s in ForcedAt(c, d, st, evs, i) ::
              FillsOf(Run(c, d, st, evs).log, s) == FillsOf(Run(c, d, st, evs[..i]).log, s)
  {
    hide Run, FillsOf, RoundTrips, Synced, Lawful, SameHolding, AddsTo, ForcedAt, HoldsLastBuy, OutOfTurn;
    forall i | 0 <= i < |evs|
      ensures Disturbs(c, d, st, evs, i, s) <==> evs[i].Rebuild? && s in ForcedAt(c, d, st, evs, i)
      ensures Disturbs(c, d, st, evs, i, s) ==>
                AddsTo(Run(c, d, st, evs[..i]).desk.ledger.book, evs[i].ledger.book, s) {
      if evs[i].Rebuild? {
        RestartAt(c, initial, d, st, evs, i);
      }
    }
    assert OnlyAdds(c, d, st, evs, s);
    RoundTripsIffUntouched(c, initial, d, st, evs, s);
    assert Untouched(c, d, st, evs, s)
      <==> forall i | 0 <= i < |evs| && Disturbs(c, d, st, evs, i, s) :: QuietSince(c, d, st, evs, i, s);
  }

  /** A call that raises is the last before a restart, as in a job. */
  ghost predicate StopsAtFailures(c: Config, d: Desk, st: Store, evs: seq<Event>) {
    forall i | 0 <= i < |evs| - 1 && Failed(c, d, st, evs, i) :: evs[i + 1].Rebuild?
  }

  ghost predicate Failed(c: Config, d: Desk, st: Store, evs: seq<Event>, i: nat)
    requires i < |evs|
  {
    Call(c, Run(c, d, st, evs[..i]).desk, evs[i]).raised
  }

  lemma StopsInit(c: Config, d: Desk, st: Store, evs: seq<Event>)
    requires StopsAtFailures(c, d, st, evs) && evs != []
    ensures StopsAtFailures(c, d, st, evs[..|evs| - 1])
    ensures |evs| > 1 && !evs[|evs| - 1].Rebuild? ==>
              !Failed(c, d, st, evs[..|evs| - 1], |evs| - 2)
  {
    hide Run, Call;
    var init := evs[..|evs| - 1];
    forall i | 0 <= i < |init| ensures Failed(c, d, st, init, i) <==> Failed(c, d, st, evs, i) {
      assert init[..i] == evs[..i];
    }
  }

  /** An account that would still be safe with the cash that is stored of it. */
  ghost predicate SafeAsStored(c: Config, l: Ledger, unsaved: real) {
    Safe(c, l) && Safe(c, l.(cash := l.cash - unsaved))
  }

  /** A fill whose cash flow is lost leaves a safe account safe: a buy that is not paid for, a sale without proceeds. */
  lemma UnpaidIsSafe(c: Config, l: Ledger, e: Entry)
    requires Safe(c, l) && LegalMove(c, l, e) && c.terms.commission >= 0.0 && e.fill.price >= 0.0
    ensures Safe(c, After(l, e.fill).(cash := l.cash))
  {
    SafeStep(c, l, e);
    var f, open := e.fill, |l.book.order|;
    NonNegativeProduct(f.quantity, f.price);
    assert f.side.Buy? ==> Notional(f) >= 0.0;
    if f.side.Buy? {
      hide Notional;
      BoughtIn(l, f);
      NonNegativeProduct(c.terms.commission, Shares(c.limits.maxOpenPositions - (open + 1)));
    } else {
      hide Notional, Profit;
      SoldOut(l, f);
      WithoutMembers(l.book.order, f.symbol);
      FloorFalls(c, open);
      hide Floor;
    }
  }

  lemma CallIsSafeAsStored(c: Config, initial: real, d: Desk, st: Store, ev: Event)
    requires Safe(c, d.ledger) && LawfulEvent(c, initial, st, ev) && !ev.Rebuild?
    requires c.terms.persist && c.terms.commission >= 0.0 && NonNegative(ev.m)
    ensures var step := Call(c, d, ev);
      && SafeAsStored(c, step.desk.ledger, Pending(d.ledger, step.log, 0.0))
      && (Pending(d.ledger, step.log, 0.0) != 0.0 ==> step.raised)
  {
    hide Call, Disciplined, PricedBy, NonNegative, End, After, Pending, LegalMove, SnapshotsKept, Floor, LongOnly;
    var step := Call(c, d, ev);
    CallIsOrderly(c, initial, d, st, ev);
    CallPricesAreQuoted(c, initial, d, st, ev);
    DisciplineKeepsSafe(c, d.ledger, step.log);
    PendingOfCall(c, d.ledger, step);
    assert step.desk.ledger.(cash := step.desk.ledger.cash - 0.0) == step.desk.ledger;
    if step.raised && step.log != [] {
      var init, e := step.log[..|step.log| - 1], step.log[|step.log| - 1];
      DisciplinedInit(c, d.ledger, step.log);
      forall e' | e' in init ensures e' in step.log {
      }
      DisciplineKeepsSafe(c, d.ledger, init);
      EndSnoc(d.ledger, step.log);
      UnpaidIsSafe(c, End(d.ledger, init), e);
    }
  }

  lemma RestartIsSafe(c: Config, live: Ledger, unsaved: real, r: Ledger)
    requires SafeAsStored(c, live, unsaved) && r.book.Valid() && !r.unlimited
    requires r.cash == live.cash - unsaved && r.book.held == live.book.held
    ensures SafeAsStored(c, r, 0.0)
  {
    SameSize(live.book, r.book);
    assert r.(cash := r.cash - 0.0) == r;
  }

  /** What happens at a restart before which no exit was forced: the live positions, and the cash that was saved. */
  lemma UnforcedRestart(c: Config, initial: real, d: Desk, st: Store, evs: seq<Event>, i: nat)
    requires Persisted(c, initial, d, st, evs) && i < |evs| && evs[i].Rebuild?
    requires Increasing(Run(c, d, st, evs).store.snapshots, c.terms.strategyName)
    ensures var live, r := Run(c, d, st, evs[..i]).desk.ledger, evs[i].ledger;
      && r.book.Valid() && live.book.Valid() && !r.unlimited && r.cash == live.cash - Unsaved(c, d, st, evs[..i])
      && (NoForcedExit(LogSince(c, d, st, evs[..i])) ==> r.book.held == live.book.held)
  {
    hide Run, LogSince, Unsaved, Increasing, ResumeCash, MayResumeWith, OpenPositions, SameHolding, AddsTo, Synced;
    var before := Run(c, d, st, evs[..i]);
    RestartAt(c, initial, d, st, evs, i);
    PersistedPrefix(c, initial, d, st, evs, i);
    RunStoreGrows(c, d, st, evs, i);
    IncreasingPrefix(before.store.snapshots, Run(c, d, st, evs).store.snapshots, c.terms.strategyName);
    SyncedCash(c, initial, d, st);
    RunKeepsBook(c, initial, d, st, evs[..i]);
    RunCash(c, initial, d, st, evs[..i]);
    assert LawfulEvent(c, initial, before.store, evs[i]);
    ResumesWithNewest(before.store.snapshots, c.terms.strategyName, initial, evs[i].ledger.cash);
    if NoForcedExit(LogSince(c, d, st, evs[..i])) {
      SamePositions(before.desk.ledger.book, evs[i].ledger.book);
    }
  }

  lemma SyncedCash(c: Config, initial: real, d: Desk, st: Store)
    requires Synced(c, initial, d, st)
    ensures d.ledger.book.Valid() && ResumeCash(st.snapshots, c.terms.strategyName, initial) == d.ledger.cash
  {
  }

  lemma SamePositions(a: Book, b: Book)
    requires forall s :: SameHolding(a, b, s)
    ensures a.held == b.held
  {
    forall s ensures s in a.held <==> s in b.held ensures s in a.held ==> a.held[s] == b.held[s] {
      assert SameHolding(a, b, s);
    }
  }

  /** Cash floor and position limit over every run that stops at its failures and restarts only where no exit had been
      forced since the restart before. Cash flows left unsaved by an exception do no harm: at most one is pending. */
  lemma {:induction false} RestartsKeepSafe(c: Config, initial: real, d: Desk, st: Store, evs: seq<Event>)
    requires Persisted(c, initial, d, st, evs) && StopsAtFailures(c, d, st, evs)
    requires Safe(c, d.ledger) && c.terms.commission >= 0.0 && NonNegativePrices(evs)
    requires Increasing(Run(c, d, st, evs).store.snapshots, c.terms.strategyName)
    requires forall i | 0 <= i < |evs| && evs[i].Rebuild? :: NoForcedExit(LogSince(c, d, st, evs[..i]))
    ensures Safe(c, Run(c, d, st, evs).desk.ledger)
    ensures SafeAsStored(c, Run(c, d, st, evs).desk.ledger, Unsaved(c, d, st, evs))
    ensures Unsaved(c, d, st, evs) != 0.0 ==> evs != [] && Failed(c, d, st, evs, |evs| - 1)
  {
    hide Safe, Increasing, Pending, Call, Stored, NonNegative, LogSince, NoForcedExit, Synced;
    if evs == [] {
      assert d.ledger.(cash := d.ledger.cash - 0.0) == d.ledger;
    } else {
      var init, ev := evs[..|evs| - 1], evs[|evs| - 1];
      var before := Run(c, d, st, init);
      PersistedPrefix(c, initial, d, st, evs, |init|);
      StopsInit(c, d, st, evs);
      RunStoreGrows(c, d, st, evs, |init|);
      IncreasingPrefix(before.store.snapshots, Run(c, d, st, evs).store.snapshots, c.terms.strategyName);
      forall i | 0 <= i < |init| && init[i].Rebuild? ensures NoForcedExit(LogSince(c, d, st, init[..i])) {
        assert init[..i] == evs[..i] && init[i] == evs[i];
      }
      RestartsKeepSafe(c, initial, d, st, init);
      if ev.Rebuild? {
        UnforcedRestart(c, initial, d, st, evs, |init|);
        RestartIsSafe(c, before.desk.ledger, Unsaved(c, d, st, init), ev.ledger);
        RebuildsLedger(c, before.desk, ev);
      } else {
        assert Unsaved(c, d, st, init) == 0.0;
        CallIsSafeAsStored(c, initial, before.desk, before.store, ev);
        UnsavedOfCall(c, d, st, evs);
      }
    }
  }

  lemma UnsavedOfCall(c: Config, d: Desk, st: Store, evs: seq<Event>)
    requires evs != [] && !evs[|evs| - 1].Rebuild? && Unsaved(c, d, st, evs[..|evs| - 1]) == 0.0
    ensures var before := Run(c, d, st, evs[..|evs| - 1]).desk;
      Unsaved(c, d, st, evs) == Pending(before.ledger, Call(c, before, evs[|evs| - 1]).log, 0.0)
  {
    hide Run, GetAccount;
    var before, ev := Run(c, d, st, evs[..|evs| - 1]).desk, evs[|evs| - 1];
    assert ev.SnapshotNow? ==> Pending(before.ledger, Call(c, before, ev).log, 0.0) == 0.0;
  }

  /** What a restart restates of the books: it loses the cash flow that was unsaved, and where no exit had been forced
      that is all; else it also gains the cost of what it brings back. */
  lemma RestatementAt(c: Config, initial: real, d: Desk, st: Store, evs: seq<Event>, i: nat)
    requires Persisted(c, initial, d, st, evs) && i < |evs| && evs[i].Rebuild?
    requires Increasing(Run(c, d, st, evs).store.snapshots, c.terms.strategyName)
    ensures var live, r := Run(c, d, st, evs[..i]).desk.ledger, evs[i].ledger;
      && Booked(r) - Booked(live) == CostBasis(r.book) - CostBasis(live.book) - Unsaved(c, d, st, evs[..i])
      && (NoForcedExit(LogSince(c, d, st, evs[..i])) ==> CostBasis(r.book) == CostBasis(live.book))
  {
    hide Run, LogSince, Unsaved, NoForcedExit, CostBasis, Persisted, Increasing;
    UnforcedRestart(c, initial, d, st, evs, i);
    var live, r := Run(c, d, st, evs[..i]).desk.ledger, evs[i].ledger;
    if NoForcedExit(LogSince(c, d, st, evs[..i])) {
      SameCostBasis(live.(cash := r.cash, unlimited := r.unlimited), r);
    }
  }

  /** The cash flows that the restarts of a run lost. */
  function LostFlows(c: Config, d: Desk, st: Store, evs: seq<Event>): real {
    if evs == [] then 0.0
    else
      var init := evs[..|evs| - 1];
      LostFlows(c, d, st, init) + (if evs[|evs| - 1].Rebuild? then Unsaved(c, d, st, init) else 0.0)
  }

  /** So the books of every run that restarts only where no exit had been forced balance but for the lost cash flows. */
  lemma {:induction false} RestatedIsLost(c: Config, initial: real, d: Desk, st: Store, evs: seq<Event>)
    requires Persisted(c, initial, d, st, evs)
    requires Increasing(Run(c, d, st, evs).store.snapshots, c.terms.strategyName)
    requires forall i | 0 <= i < |evs| && evs[i].Rebuild? :: NoForcedExit(LogSince(c, d, st, evs[..i]))
    ensures Restated(c, d, st, evs) == -LostFlows(c, d, st, evs)
  {
    hide Run, LogSince, Unsaved, NoForcedExit, CostBasis, Persisted, Increasing, Booked;
    if evs != [] {
      var init := evs[..|evs| - 1];
      PersistedPrefix(c, initial, d, st, evs, |init|);
      RunStoreGrows(c, d, st, evs, |init|);
      IncreasingPrefix(Run(c, d, st, init).store.snapshots, Run(c, d, st, evs).store.snapshots, c.terms.strategyName);
      forall i | 0 <= i < |init| && init[i].Rebuild? ensures NoForcedExit(LogSince(c, d, st, init[..i])) {
        assert init[..i] == evs[..i] && init[i] == evs[i];
      }
      RestatedIsLost(c, initial, d, st, init);
      if evs[|evs| - 1].Rebuild? {
        RestatementAt(c, initial, d, st, evs, |init|);
      }
    }
  }
}
