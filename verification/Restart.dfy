/** Restarts: when the context rebuilt from the database is the live one, and what is lost when it is not. */
module Restart {
  import opened Discipline
  import opened Divergence
  import opened Domain
  import opened Ledgers
  import opened Runs
  import opened Stores
  import opened Tally
  import opened Trading

  /** The last snapshot written under a name. */
  function Newest(snapshots: seq<Snapshot>, name: string): Option<Account> {
    if snapshots == [] then None
    else
      var last := snapshots[|snapshots| - 1];
      if last.strategyName == name then Some(last.account) else Newest(snapshots[..|snapshots| - 1], name)
  }

  function ResumeCash(snapshots: seq<Snapshot>, name: string, initial: real): real {
    var newest := Newest(snapshots, name);
    if newest.Some? then newest.value.cash else initial
  }

  /** The snapshots of one name carry increasing times. */
  ghost predicate Increasing(snapshots: seq<Snapshot>, name: string) {
    forall i, j | 0 <= i < j < |snapshots| && snapshots[i].strategyName == name && snapshots[j].strategyName == name ::
      snapshots[i].account.timestamp < snapshots[j].account.timestamp
  }

  lemma {:induction false} NewestIsLast(snapshots: seq<Snapshot>, name: string) returns (k: nat)
    requires Newest(snapshots, name).Some?
    ensures k < |snapshots| && snapshots[k].strategyName == name
    ensures Newest(snapshots, name) == Some(snapshots[k].account)
    ensures forall j | k < j < |snapshots| :: snapshots[j].strategyName != name
  {
    var n := |snapshots| - 1;
    if snapshots[n].strategyName == name {
      k := n;
    } else {
      k := NewestIsLast(snapshots[..n], name);
    }
  }

  lemma {:induction false} NoneStored(snapshots: seq<Snapshot>, name: string)
    requires Newest(snapshots, name).None?
    ensures forall i | 0 <= i < |snapshots| :: snapshots[i].strategyName != name
  {
    if snapshots != [] {
      NoneStored(snapshots[..|snapshots| - 1], name);
    }
  }

  /** With increasing times the query has one answer: the snapshot written last. */
  lemma ResumesWithNewest(snapshots: seq<Snapshot>, name: string, initial: real, cash: real)
    requires Increasing(snapshots, name)
    ensures MayResumeWith(snapshots, name, initial, cash) <==> cash == ResumeCash(snapshots, name, initial)
  {
    if Newest(snapshots, name).None? {
      NoneStored(snapshots, name);
    } else {
      var k := NewestIsLast(snapshots, name);
      assert IsLatest(snapshots, name, snapshots[k]);
      assert snapshots[k].account.cash == ResumeCash(snapshots, name, initial);
      forall s | IsLatest(snapshots, name, s) ensures s == snapshots[k] {
        var i :| 0 <= i < |snapshots| && snapshots[i] == s;
        assert snapshots[k].account.timestamp <= snapshots[i].account.timestamp;
      }
    }
  }

  /** What every rebuilt context agrees with: the live cash and the live positions. */
  ghost predicate LosesNothing(c: Config, initial: real, l: Ledger, st: Store) {
    forall r | RebuiltFrom(st, c.terms.strategyName, initial, r) :: r.cash == l.cash && r.book.held == l.book.held
  }

  lemma {:induction false} SomeOrder(keys: set<Symbol>) returns (order: seq<Symbol>)
    ensures Distinct(order) && forall s :: s in order <==> s in keys
  {
    if keys == {} {
      order := [];
    } else {
      var s :| s in keys;
      order := SomeOrder(keys - {s});
      order := order + [s];
    }
  }

  lemma {:induction false} LatestExists(snapshots: seq<Snapshot>, name: string) returns (s: Snapshot)
    requires exists t :: t in snapshots && t.strategyName == name
    ensures IsLatest(snapshots, name, s)
  {
    var init, last := snapshots[..|snapshots| - 1], snapshots[|snapshots| - 1];
    assert snapshots == init + [last];
    if t :| t in init && t.strategyName == name {
      s := LatestExists(init, name);
      if last.strategyName == name && last.account.timestamp >= s.account.timestamp {
        s := last;
      }
    } else {
      s := last;
    }
  }

  /** Some context can always be rebuilt. */
  lemma SomeRebuilt(st: Store, name: string, initial: real) returns (r: Ledger)
    ensures RebuiltFrom(st, name, initial, r)
  {
    var cash := initial;
    if t :| t in st.snapshots && t.strategyName == name {
      var s := LatestExists(st.snapshots, name);
      cash := s.account.cash;
    }
    var held := OpenPositions(st.rows, name);
    var order := SomeOrder(held.Keys);
    r := Ledger(cash, false, Book(order, held), 0.0);
  }

  /** Losing nothing is a matter of two equalities. */
  lemma LosesNothingIff(c: Config, initial: real, l: Ledger, st: Store)
    requires Increasing(st.snapshots, c.terms.strategyName)
    ensures LosesNothing(c, initial, l, st)
       <==> ResumeCash(st.snapshots, c.terms.strategyName, initial) == l.cash
            && OpenPositions(st.rows, c.terms.strategyName) == l.book.held
  {
    hide MayResumeWith, ResumeCash, OpenPositions, Increasing;
    var name := c.terms.strategyName;
    forall cash ensures MayResumeWith(st.snapshots, name, initial, cash)
                   <==> cash == ResumeCash(st.snapshots, name, initial) {
      ResumesWithNewest(st.snapshots, name, initial, cash);
    }
    var r := SomeRebuilt(st, name, initial);
    assert RebuiltFrom(st, name, initial, r);
  }

  /** How much a fill moves cash. */
  function CashMoved(l: Ledger, f: Fill): real {
    After(l, f).cash - l.cash
  }

  /** The cash that the fills of a log moved after its last stored snapshot, on top of what was `carried` unsaved into
      it. */
  function Pending(l: Ledger, log: seq<Entry>, carried: real): real {
    if log == [] then carried
    else
      var init, e := log[..|log| - 1], log[|log| - 1];
      if e.snapshot.Some? then 0.0 else Pending(l, init, carried) + CashMoved(End(l, init), e.fill)
  }

  lemma {:induction false} PersistedCash(c: Config, initial: real, l: Ledger, st: Store, log: seq<Entry>, carried: real)
    requires Disciplined(c, l, log)
    requires ResumeCash(st.snapshots, c.terms.strategyName, initial) + carried == l.cash
    ensures ResumeCash(Persist(st, c.terms.strategyName, log).snapshots, c.terms.strategyName, initial)
            + Pending(l, log, carried) == End(l, log).cash
  {
    hide Disciplined, LegalMove, After, UpsertPosition;
    if log != [] {
      DisciplinedInit(c, l, log);
      PersistedCash(c, initial, l, st, log[..|log| - 1], carried);
      EndSnoc(l, log);
    }
  }

  lemma {:induction false} PersistGrows(st: Store, name: string, log: seq<Entry>)
    ensures st.snapshots <= Persist(st, name, log).snapshots
  {
    if log != [] {
      PersistGrows(st, name, log[..|log| - 1]);
    }
  }

  /** The state between two calls: an account in sync with its database. */
  ghost predicate Synced(c: Config, initial: real, d: Desk, st: Store) {
    && d.ledger.book.Valid()
    && InSync(c.terms.strategyName, d.ledger.book, st.rows)
    && ResumeCash(st.snapshots, c.terms.strategyName, initial) == d.ledger.cash
  }

  lemma SyncedPositions(c: Config, initial: real, d: Desk, st: Store)
    requires Synced(c, initial, d, st)
    ensures OpenPositions(st.rows, c.terms.strategyName) == d.ledger.book.held
  {
    forall s ensures Tracks(c.terms.strategyName, d.ledger.book, st.rows, s, RiskSold([], s)) {
    }
    InSyncIffNoForcedExit(c.terms.strategyName, d.ledger.book, st.rows, []);
  }

  /** Within one call only its last fill can be unsaved, and only where the call raised. */
  lemma PendingOfCall(c: Config, l: Ledger, step: Step)
    requires c.terms.persist && SnapshotsKept(c, step)
    ensures Pending(l, step.log, 0.0)
         == if step.raised && step.log != [] then
              CashMoved(End(l, step.log[..|step.log| - 1]), step.log[|step.log| - 1].fill)
            else 0.0
  {
    hide CashMoved, End;
    if |step.log| > 1 {
      assert step.log[..|step.log| - 1][|step.log| - 2] == step.log[|step.log| - 2];
    }
  }

  lemma StoredPositionsIff(c: Config, d: Desk, st: Store, m: Market, step: Step)
    requires !IsRiskTag(c.terms.strategyName) && d.ledger.book.Valid() && Orderly(c, d, m, step)
    requires InSync(c.terms.strategyName, d.ledger.book, st.rows)
    ensures OpenPositions(Persist(st, c.terms.strategyName, step.log).rows, c.terms.strategyName)
         == step.desk.ledger.book.held
       <==> forall i | 0 <= i < |step.log| :: !IsRiskTag(step.log[i].tag)
  {
    hide OffBy, InSync, Disciplined, PricedBy, Persist, OpenPositions, RealForcedSale, IsRiskTag;
    var name := c.terms.strategyName;
    InSyncIsOffByNothing(name, d.ledger.book, st.rows);
    DivergenceLaw(c, d.ledger, st, [], step.log);
    assert [] + step.log == step.log;
    InSyncIffNoForcedExit(name, step.desk.ledger.book, Persist(st, name, step.log).rows, step.log);
  }

  lemma SnapshotResumes(snapshots: seq<Snapshot>, account: Option<Account>, name: string, initial: real)
    ensures account.Some? ==>
              ResumeCash(snapshots + [Snapshot(name, account.value)], name, initial) == account.value.cash
  {
  }

  /** One call from a synced state, whatever the market does in it: a restart right after it loses nothing exactly
      when the call forced no exit and, if it raised after a fill, that fill moved no cash. */
  lemma CallLosesNothingIff(c: Config, initial: real, d: Desk, st: Store, ev: Event)
    requires c.terms.persist && !IsRiskTag(c.terms.strategyName) && Synced(c, initial, d, st)
    requires !ev.Rebuild? && LawfulEvent(c, initial, st, ev)
    requires Increasing(Stored(c, d, st, ev).snapshots, c.terms.strategyName)
    ensures var step := Call(c, d, ev);
      LosesNothing(c, initial, step.desk.ledger, Stored(c, d, st, ev))
      <==> && (forall i | 0 <= i < |step.log| :: !IsRiskTag(step.log[i].tag))
           && (step.raised && step.log != [] ==>
                 CashMoved(End(d.ledger, step.log[..|step.log| - 1]), step.log[|step.log| - 1].fill) == 0.0)
  {
    hide Persist, IsRiskTag, Increasing, LosesNothing, InSync, OpenPositions, ResumeCash, CashMoved, Pending,
      Disciplined, PricedBy, SnapshotsKept, End;
    var step := Call(c, d, ev);
    CallIsOrderly(c, initial, d, st, ev);
    LosesNothingIff(c, initial, step.desk.ledger, Stored(c, d, st, ev));
    if ev.SnapshotNow? {
      SyncedPositions(c, initial, d, st);
      SnapshotResumes(st.snapshots, GetAccount(d.ledger, ev.m, ev.k), c.terms.strategyName, initial);
    } else {
      StoredPositionsIff(c, d, st, ev.m, step);
      PersistedCash(c, initial, d.ledger, st, step.log, 0.0);
      PendingOfCall(c, d.ledger, step);
    }
  }

  lemma IncreasingPrefix(a: seq<Snapshot>, b: seq<Snapshot>, name: string)
    requires a <= b && Increasing(b, name)
    ensures Increasing(a, name)
  {
    assert forall i | 0 <= i < |a| :: a[i] == b[i];
  }

  /** A fresh account over an empty database is in sync. */
  lemma FreshAccountIsSynced(c: Config, initial: real)
    requires !IsRiskTag(c.terms.strategyName)
    ensures Synced(c, initial, Desk(Ledger(initial, false, EMPTY_BOOK, 0.0), None), EMPTY_STORE)
  {
  }

  /** The fills since the last restart. */
  function LogSince(c: Config, d: Desk, st: Store, evs: seq<Event>): seq<Entry> {
    if evs == [] || evs[|evs| - 1].Rebuild? then []
    else
      var init, ev := evs[..|evs| - 1], evs[|evs| - 1];
      LogSince(c, d, st, init) + Call(c, Run(c, d, st, init).desk, ev).log
  }

  /** The cash moved by fills since the last stored snapshot or restart. An exception between a fill and its snapshot
      leaves some; the next stored snapshot heals it. */
  function Unsaved(c: Config, d: Desk, st: Store, evs: seq<Event>): real {
    if evs == [] || evs[|evs| - 1].Rebuild? then 0.0
    else
      var init, ev := evs[..|evs| - 1], evs[|evs| - 1];
      var before := Run(c, d, st, init).desk;
      if ev.SnapshotNow? && GetAccount(before.ledger, ev.m, ev.k).Some? then 0.0
      else Pending(before.ledger, Call(c, before, ev).log, Unsaved(c, d, st, init))
  }

  predicate NoForcedExit(log: seq<Entry>) {
    forall i | 0 <= i < |log| :: !IsRiskTag(log[i].tag)
  }

  predicate RealForcedSales(log: seq<Entry>) {
    forall i | 0 <= i < |log| :: RealForcedSale(log[i])
  }

  lemma NothingPersisted(st: Store, name: string)
    ensures Persist(st, name, []) == st
  {
  }

  lemma CallTracks(c: Config, initial: real, d: Desk, st: Store, earlier: seq<Entry>, ev: Event)
    requires c.terms.persist && !IsRiskTag(c.terms.strategyName) && d.ledger.book.Valid()
    requires OffBy(c.terms.strategyName, d.ledger.book, st.rows, earlier) && RealForcedSales(earlier)
    requires !ev.Rebuild? && LawfulEvent(c, initial, st, ev)
    ensures var step := Call(c, d, ev);
      && OffBy(c.terms.strategyName, step.desk.ledger.book, Stored(c, d, st, ev).rows, earlier + step.log)
      && RealForcedSales(earlier + step.log)
  {
    hide OffBy, Disciplined, PricedBy, SnapshotsKept, Persist, RealForcedSale, End;
    var step := Call(c, d, ev);
    CallIsOrderly(c, initial, d, st, ev);
    DivergenceLaw(c, d.ledger, st, earlier, step.log);
    if ev.SnapshotNow? {
      NothingPersisted(st, c.terms.strategyName);
    }
  }

  /** At every point of every lawful run, restarts and exceptions included, the table is off by what the risk rules sold
      since the last restart. */
  lemma {:induction false} RunTracks(c: Config, initial: real, d: Desk, st: Store, evs: seq<Event>)
    requires c.terms.persist && !IsRiskTag(c.terms.strategyName) && Synced(c, initial, d, st)
    requires Lawful(c, initial, d, st, evs)
    ensures var after, since := Run(c, d, st, evs), LogSince(c, d, st, evs);
      && OffBy(c.terms.strategyName, after.desk.ledger.book, after.store.rows, since) && RealForcedSales(since)
      && after.desk.ledger.book.Valid()
  {
    hide OffBy, InSync, Call, Stored, ResumeCash, RebuiltFrom;
    RunKeepsBook(c, initial, d, st, evs);
    if evs == [] {
      InSyncIsOffByNothing(c.terms.strategyName, d.ledger.book, st.rows);
    } else {
      var init, ev := evs[..|evs| - 1], evs[|evs| - 1];
      var before := Run(c, d, st, init);
      LawfulInit(c, initial, d, st, evs);
      RunTracks(c, initial, d, st, init);
      if ev.Rebuild? {
        RebuildTracks(c, initial, before.desk, before.store, LogSince(c, d, st, init), ev);
      } else {
        CallTracks(c, initial, before.desk, before.store, LogSince(c, d, st, init), ev);
      }
    }
  }

  lemma RebuildTracks(c: Config, initial: real, d: Desk, st: Store, since: seq<Entry>, ev: Event)
    requires ev.Rebuild? && LawfulEvent(c, initial, st, ev)
    requires OffBy(c.terms.strategyName, d.ledger.book, st.rows, since) && RealForcedSales(since)
    ensures Call(c, d, ev) == Step(Desk(ev.ledger, None), [], 0, false) && Stored(c, d, st, ev) == st
    ensures OffBy(c.terms.strategyName, ev.ledger.book, st.rows, [])
  {
    hide OffBy, InSync, RebuiltFrom, RealForcedSale;
    RestartSyncs(c.terms.strategyName, initial, st, d.ledger.book, since, ev.ledger);
    InSyncIsOffByNothing(c.terms.strategyName, ev.ledger.book, st.rows);
  }

  lemma StoreGrows(c: Config, d: Desk, st: Store, ev: Event)
    ensures st.snapshots <= Stored(c, d, st, ev).snapshots
  {
    PersistGrows(st, c.terms.strategyName, Call(c, d, ev).log);
    hide Persist, Call, GetAccount;
  }

  lemma {:induction false} RunStoreGrows(c: Config, d: Desk, st: Store, evs: seq<Event>, n: nat)
    requires n <= |evs|
    ensures Run(c, d, st, evs[..n]).store.snapshots <= Run(c, d, st, evs).store.snapshots
    decreases |evs|
  {
    hide Stored, Call;
    if n == |evs| {
      assert evs[..n] == evs;
    } else {
      var init := evs[..|evs| - 1];
      assert init[..n] == evs[..n];
      RunStoreGrows(c, d, st, init, n);
      StoreGrows(c, Run(c, d, st, init).desk, Run(c, d, st, init).store, evs[|evs| - 1]);
    }
  }

  /** The cash a restart resumes with is the live cash but for what is unsaved. */
  lemma {:induction false} RunCash(c: Config, initial: real, d: Desk, st: Store, evs: seq<Event>)
    requires c.terms.persist && d.ledger.book.Valid() && Lawful(c, initial, d, st, evs)
    requires ResumeCash(st.snapshots, c.terms.strategyName, initial) == d.ledger.cash
    requires Increasing(Run(c, d, st, evs).store.snapshots, c.terms.strategyName)
    ensures ResumeCash(Run(c, d, st, evs).store.snapshots, c.terms.strategyName, initial) + Unsaved(c, d, st, evs)
         == Run(c, d, st, evs).desk.ledger.cash
  {
    hide Call, Stored, ResumeCash, Increasing, Pending, GetAccount, RebuiltFrom;
    if evs != [] {
      var init, ev := evs[..|evs| - 1], evs[|evs| - 1];
      var before := Run(c, d, st, init);
      LawfulInit(c, initial, d, st, evs);
      StoreGrows(c, before.desk, before.store, ev);
      IncreasingPrefix(before.store.snapshots, Run(c, d, st, evs).store.snapshots, c.terms.strategyName);
      RunCash(c, initial, d, st, init);
      RunKeepsBook(c, initial, d, st, init);
      CallCash(c, initial, before.desk, before.store, ev, Unsaved(c, d, st, init));
    }
  }

  lemma CallCash(c: Config, initial: real, d: Desk, st: Store, ev: Event, carried: real)
    requires c.terms.persist && d.ledger.book.Valid() && LawfulEvent(c, initial, st, ev)
    requires ResumeCash(st.snapshots, c.terms.strategyName, initial) + carried == d.ledger.cash
    requires Increasing(st.snapshots, c.terms.strategyName)
    ensures var unsaved :=
        if ev.Rebuild? || (ev.SnapshotNow? && GetAccount(d.ledger, ev.m, ev.k).Some?) then 0.0
        else Pending(d.ledger, Call(c, d, ev).log, carried);
      ResumeCash(Stored(c, d, st, ev).snapshots, c.terms.strategyName, initial) + unsaved
      == Call(c, d, ev).desk.ledger.cash
  {
    hide ResumeCash, Increasing, Disciplined, PricedBy, SnapshotsKept, Persist;
    if ev.Rebuild? {
      ResumesWithNewest(st.snapshots, c.terms.strategyName, initial, ev.ledger.cash);
      assert Persist(st, c.terms.strategyName, []) == st by {
        NothingPersisted(st, c.terms.strategyName);
      }
    } else {
      CallIsOrderly(c, initial, d, st, ev);
      PersistedCash(c, initial, d.ledger, st, Call(c, d, ev).log, carried);
      if ev.SnapshotNow? {
        SnapshotResumes(st.snapshots, GetAccount(d.ledger, ev.m, ev.k), c.terms.strategyName, initial);
        NothingPersisted(st, c.terms.strategyName);
      }
    }
  }

  /** Without an exception nothing is unsaved. */
  lemma {:induction false} NothingUnsaved(c: Config, initial: real, d: Desk, st: Store, evs: seq<Event>)
    requires c.terms.persist && d.ledger.book.Valid() && Lawful(c, initial, d, st, evs)
    requires !Run(c, d, st, evs).raised
    ensures Unsaved(c, d, st, evs) == 0.0
  {
    hide Call, Stored, GetAccount;
    if evs != [] && !evs[|evs| - 1].Rebuild? {
      var init, ev := evs[..|evs| - 1], evs[|evs| - 1];
      LawfulInit(c, initial, d, st, evs);
      NothingUnsaved(c, initial, d, st, init);
      RunKeepsBook(c, initial, d, st, init);
      var before := Run(c, d, st, init);
      hide Pending, Disciplined, PricedBy, SnapshotsKept;
      CallIsOrderly(c, initial, before.desk, before.store, ev);
      PendingOfCall(c, before.desk.ledger, Call(c, before.desk, ev));
    }
  }

  /** The divergence law over whole runs: at the end of every lawful run from a synced account, restarts and exceptions
      included, the stored quantity of each symbol exceeds the ledger's by exactly what the risk rules sold since the
      last restart, no row stands under a risk tag, and a restart would bring exactly those shares back, one position
      for each symbol held or sold by force. */
  lemma RunDiverges(c: Config, initial: real, d: Desk, st: Store, evs: seq<Event>)
    requires c.terms.persist && !IsRiskTag(c.terms.strategyName) && Synced(c, initial, d, st)
    requires Lawful(c, initial, d, st, evs)
    ensures var after, since := Run(c, d, st, evs), LogSince(c, d, st, evs);
      && OffBy(c.terms.strategyName, after.desk.ledger.book, after.store.rows, since)
      && (forall r, s | RebuiltFrom(after.store, c.terms.strategyName, initial, r) ::
            QuantityOf(r.book, s) == QuantityOf(after.desk.ledger.book, s) + RiskSold(since, s))
      && (forall r | RebuiltFrom(after.store, c.terms.strategyName, initial, r) ::
            && r.book.held.Keys == after.desk.ledger.book.held.Keys + ForcedSymbols(since)
            && |r.book.order| == |after.desk.ledger.book.held.Keys + ForcedSymbols(since)|)
  {
    hide OffBy, RebuiltFrom, Run, LogSince, RiskSold, ForcedSymbols, RealForcedSale;
    var after, since, name := Run(c, d, st, evs), LogSince(c, d, st, evs), c.terms.strategyName;
    RunTracks(c, initial, d, st, evs);
    forall r, s | RebuiltFrom(after.store, name, initial, r)
      ensures QuantityOf(r.book, s) == QuantityOf(after.desk.ledger.book, s) + RiskSold(since, s) {
      RestartResurrects(name, initial, after.store, after.desk.ledger.book, since, r, s);
    }
    forall r | RebuiltFrom(after.store, name, initial, r)
      ensures r.book.held.Keys == after.desk.ledger.book.held.Keys + ForcedSymbols(since)
      ensures |r.book.order| == |after.desk.ledger.book.held.Keys + ForcedSymbols(since)| {
      RestartedPositions(name, initial, after.store, after.desk.ledger.book, since, r);
    }
  }

  /** After every lawful run from a synced account, restarts and exceptions included, a restart loses nothing if and
      only if no exit was forced since the last restart and no cash flow is unsaved. */
  lemma RunLosesNothingIff(c: Config, initial: real, d: Desk, st: Store, evs: seq<Event>)
    requires c.terms.persist && !IsRiskTag(c.terms.strategyName) && Synced(c, initial, d, st)
    requires Lawful(c, initial, d, st, evs)
    requires Increasing(Run(c, d, st, evs).store.snapshots, c.terms.strategyName)
    ensures LosesNothing(c, initial, Run(c, d, st, evs).desk.ledger, Run(c, d, st, evs).store)
       <==> NoForcedExit(LogSince(c, d, st, evs)) && Unsaved(c, d, st, evs) == 0.0
  {
    hide OffBy, Run, LogSince, Unsaved, LosesNothing, Increasing, OpenPositions, RealForcedSale, ResumeCash, IsRiskTag;
    var after := Run(c, d, st, evs);
    RunTracks(c, initial, d, st, evs);
    RunCash(c, initial, d, st, evs);
    InSyncIffNoForcedExit(c.terms.strategyName, after.desk.ledger.book, after.store.rows, LogSince(c, d, st, evs));
    LosesNothingIff(c, initial, after.desk.ledger, after.store);
  }

  lemma {:induction false} SinceIsOfRun(c: Config, d: Desk, st: Store, evs: seq<Event>)
    ensures forall e | e in LogSince(c, d, st, evs) :: e in Run(c, d, st, evs).log
  {
    hide Call, Stored;
    if evs != [] {
      SinceIsOfRun(c, d, st, evs[..|evs| - 1]);
    }
  }

  /** Restart transparency: after every run, restarts and exceptions included, whose fills all carry the strategy's own
      name, whose snapshot times increase and which has no cash flow unsaved, the context rebuilt from the database has
      the live cash and the live positions. A run without exceptions has none unsaved. */
  lemma RestartIsTransparent(c: Config, initial: real, d: Desk, st: Store, evs: seq<Event>)
    requires c.terms.persist && !IsRiskTag(c.terms.strategyName) && Synced(c, initial, d, st)
    requires Lawful(c, initial, d, st, evs)
    requires forall e | e in Run(c, d, st, evs).log :: e.tag == c.terms.strategyName
    requires Increasing(Run(c, d, st, evs).store.snapshots, c.terms.strategyName)
    requires Run(c, d, st, evs).raised ==> Unsaved(c, d, st, evs) == 0.0
    ensures LosesNothing(c, initial, Run(c, d, st, evs).desk.ledger, Run(c, d, st, evs).store)
  {
    hide Run, LogSince, Unsaved, LosesNothing, Increasing, IsRiskTag;
    SinceIsOfRun(c, d, st, evs);
    if !Run(c, d, st, evs).raised {
      NothingUnsaved(c, initial, d, st, evs);
    }
    RunLosesNothingIff(c, initial, d, st, evs);
  }

  lemma {:induction false} RunStaysLimited(c: Config, initial: real, d: Desk, st: Store, evs: seq<Event>)
    requires d.ledger.book.Valid() && Lawful(c, initial, d, st, evs) && !d.ledger.unlimited
    ensures !Run(c, d, st, evs).desk.ledger.unlimited
  {
    hide Call, Stored;
    if evs != [] {
      var init, ev := evs[..|evs| - 1], evs[|evs| - 1];
      LawfulInit(c, initial, d, st, evs);
      RunStaysLimited(c, initial, d, st, init);
      RunKeepsBook(c, initial, d, st, init);
      var before := Run(c, d, st, init);
      if ev.Rebuild? {
        RebuildsLedger(c, before.desk, ev);
      } else {
        CallIsOrderly(c, initial, before.desk, before.store, ev);
        ReplayStaysLimited(before.desk.ledger, Fills(Call(c, before.desk, ev).log));
      }
    }
  }

  lemma RebuildsLedger(c: Config, d: Desk, ev: Event)
    requires ev.Rebuild?
    ensures Call(c, d, ev).desk.ledger == ev.ledger
  {
  }

  lemma {:induction false} ReplayStaysLimited(l: Ledger, fills: seq<Fill>)
    ensures Replay(l, fills).unlimited == l.unlimited
  {
    hide Notional, Profit, Averaged;
    if fills != [] {
      ReplayStaysLimited(l, fills[..|fills| - 1]);
    }
  }

  /** When restarts are seamless, in every lawful run from a synced account: if and only if at each of them no exit had
      been forced since the one before and no cash flow was unsaved. */
  lemma RestartsAreSeamlessIff(c: Config, initial: real, d: Desk, st: Store, evs: seq<Event>)
    requires c.terms.persist && !IsRiskTag(c.terms.strategyName) && Synced(c, initial, d, st) && !d.ledger.unlimited
    requires Lawful(c, initial, d, st, evs)
    requires Increasing(Run(c, d, st, evs).store.snapshots, c.terms.strategyName)
    ensures Seamless(c, d, st, evs)
       <==> forall i | 0 <= i < |evs| && evs[i].Rebuild? ::
              NoForcedExit(LogSince(c, d, st, evs[..i])) && Unsaved(c, d, st, evs[..i]) == 0.0
  {
    hide LogSince, Unsaved, LosesNothing, Increasing, Run, NoForcedExit, Synced, SameAccount, RebuiltFrom;
    forall i | 0 <= i < |evs| && evs[i].Rebuild?
      ensures SameAccount(Run(c, d, st, evs[..i]).desk.ledger, evs[i].ledger)
         <==> NoForcedExit(LogSince(c, d, st, evs[..i])) && Unsaved(c, d, st, evs[..i]) == 0.0 {
      LawfulPrefix(c, initial, d, st, evs, i);
      RunStoreGrows(c, d, st, evs, i);
      IncreasingPrefix(Run(c, d, st, evs[..i]).store.snapshots, Run(c, d, st, evs).store.snapshots,
                       c.terms.strategyName);
      SyncedBook(c, initial, d, st);
      RunKeepsBook(c, initial, d, st, evs[..i]);
      RunStaysLimited(c, initial, d, st, evs[..i]);
      RunLosesNothingIff(c, initial, d, st, evs[..i]);
      assert LawfulEvent(c, initial, Run(c, d, st, evs[..i]).store, evs[i]);
      RebuiltSameIff(c, initial, Run(c, d, st, evs[..i]).desk.ledger, Run(c, d, st, evs[..i]).store, evs[i].ledger);
    }
  }

  lemma SyncedBook(c: Config, initial: real, d: Desk, st: Store)
    requires Synced(c, initial, d, st)
    ensures d.ledger.book.Valid()
  {
  }

  lemma LawfulPrefix(c: Config, initial: real, d: Desk, st: Store, evs: seq<Event>, n: nat)
    requires Lawful(c, initial, d, st, evs) && n <= |evs|
    ensures Lawful(c, initial, d, st, evs[..n])
  {
    hide LawfulEvent, Run;
    forall i | 0 <= i < n ensures LawfulEvent(c, initial, Run(c, d, st, evs[..n][..i]).store, evs[..n][i]) {
      assert evs[..n][..i] == evs[..i];
    }
  }

  /** All rebuilt contexts agree, so one that matches the live account speaks for all. */
  lemma RebuiltSameIff(c: Config, initial: real, live: Ledger, st: Store, r: Ledger)
    requires Increasing(st.snapshots, c.terms.strategyName) && live.book.Valid() && !live.unlimited
    requires RebuiltFrom(st, c.terms.strategyName, initial, r)
    ensures SameAccount(live, r) <==> LosesNothing(c, initial, live, st)
  {
    LosesNothingIff(c, initial, live, st);
    ResumesWithNewest(st.snapshots, c.terms.strategyName, initial, r.cash);
    hide MayResumeWith, Increasing, LosesNothing;
  }

  lemma {:induction false} RunPrefix(c: Config, d: Desk, st: Store, evs: seq<Event>, n: nat)
    requires n <= |evs|
    ensures Run(c, d, st, evs[..n]).log <= Run(c, d, st, evs).log
    ensures Run(c, d, st, evs[..n]).raised ==> Run(c, d, st, evs).raised
    decreases |evs|
  {
    hide Stored, Call;
    if n == |evs| {
      assert evs[..n] == evs;
    } else {
      var init := evs[..|evs| - 1];
      assert init[..n] == evs[..n];
      RunPrefix(c, d, st, init, n);
    }
  }

  /** A simple case: in a run without exceptions whose fills all carry the strategy's own name, every restart is
      seamless. */
  lemma OwnNameRunsAreSeamless(c: Config, initial: real, d: Desk, st: Store, evs: seq<Event>)
    requires c.terms.persist && !IsRiskTag(c.terms.strategyName) && Synced(c, initial, d, st) && !d.ledger.unlimited
    requires Lawful(c, initial, d, st, evs) && !Run(c, d, st, evs).raised
    requires forall e | e in Run(c, d, st, evs).log :: e.tag == c.terms.strategyName
    requires Increasing(Run(c, d, st, evs).store.snapshots, c.terms.strategyName)
    ensures Seamless(c, d, st, evs)
  {
    hide Run, LogSince, Unsaved, Increasing, Seamless, Lawful, IsRiskTag;
    forall i | 0 <= i < |evs| && evs[i].Rebuild?
      ensures NoForcedExit(LogSince(c, d, st, evs[..i])) && Unsaved(c, d, st, evs[..i]) == 0.0 {
      LawfulPrefix(c, initial, d, st, evs, i);
      RunPrefix(c, d, st, evs, i);
      SinceIsOfRun(c, d, st, evs[..i]);
      var before, all := Run(c, d, st, evs[..i]).log, Run(c, d, st, evs).log;
      forall e | e in before ensures e in all {
        var j :| 0 <= j < |before| && before[j] == e;
        assert all[j] == e;
      }
      NothingUnsaved(c, initial, d, st, evs[..i]);
    }
    RestartsAreSeamlessIff(c, initial, d, st, evs);
  }
}
