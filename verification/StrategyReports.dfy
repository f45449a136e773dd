/** The daily report of one strategy: profit and loss recovered from the trades stored under the strategy's name. Forced
    exits are stored under a risk tag, so the report does not see them. */
module StrategyReports {
  import opened Discipline
  import opened Divergence
  import opened Domain
  import opened Ledgers
  import opened Profits
  import opened Repositories
  import opened Restart
  import opened Restarts
  import opened Runs
  import opened Safety
  import opened Stores
  import opened Trading

  /** The trades the report asks for. */
  function OwnTradesOf(st: Store, name: string): seq<Fill> {
    Selected(st.trades, None, None, Some(name))
  }

  function OwnFills(log: seq<Entry>, name: string): seq<Fill> {
    if log == [] then []
    else OwnFills(log[..|log| - 1], name) + (if log[|log| - 1].tag == name then [log[|log| - 1].fill] else [])
  }

  lemma SavedTrade(st: Store, name: string, e: Entry)
    requires UpsertPosition(st.rows, e.fill, e.tag).Some?
    ensures OwnTradesOf(SaveEntry(st, name, e), name)
         == OwnTradesOf(st, name) + (if e.tag == name then [e.fill] else [])
  {
    assert (st.trades + [Trade(e.fill, e.tag)])[..|st.trades|] == st.trades;
    hide UpsertPosition;
  }

  /** The trades stored under the name are the log's own fills. */
  lemma {:induction false} StoredOwnFills(c: Config, l: Ledger, st: Store, earlier: seq<Entry>, log: seq<Entry>)
    requires l.book.Valid() && Disciplined(c, l, log) && !IsRiskTag(c.terms.strategyName)
    requires OffBy(c.terms.strategyName, l.book, st.rows, earlier)
    ensures OwnTradesOf(Persist(st, c.terms.strategyName, log), c.terms.strategyName)
         == OwnTradesOf(st, c.terms.strategyName) + OwnFills(log, c.terms.strategyName)
  {
    hide LegalMove, After, SaveEntry, Disciplined, UpsertPosition, OffBy, OwnTradesOf;
    if log != [] {
      var name, init, e := c.terms.strategyName, log[..|log| - 1], log[|log| - 1];
      DisciplinedInit(c, l, log);
      StoredOwnFills(c, l, st, earlier, init);
      DivergenceLaw(c, l, st, earlier, init);
      OffByStep(c, End(l, init), Persist(st, name, init).rows, earlier + init, e);
      SavedTrade(Persist(st, name, init), name, e);
    }
  }

  lemma {:induction false} OwnFillsAreAll(log: seq<Entry>, name: string)
    requires forall i | 0 <= i < |log| :: log[i].tag == name
    ensures OwnFills(log, name) == Fills(log)
  {
    if log != [] {
      OwnFillsAreAll(log[..|log| - 1], name);
      assert Fills(log) == Fills(log[..|log| - 1]) + [log[|log| - 1].fill];
    }
  }

  function SellCount(fills: seq<Fill>): nat {
    if fills == [] then 0 else SellCount(fills[..|fills| - 1]) + (if fills[|fills| - 1].side.Sell? then 1 else 0)
  }

  lemma SellCountSnoc(fills: seq<Fill>, f: Fill)
    ensures SellCount(fills + [f]) == SellCount(fills) + (if f.side.Sell? then 1 else 0)
  {
    assert (fills + [f])[..|fills|] == fills;
  }

  lemma {:induction false} InsertCounts(sorted: seq<Fill>, f: Fill)
    ensures SellCount(Insert(sorted, f)) == SellCount(sorted) + (if f.side.Sell? then 1 else 0)
  {
    if sorted == [] || sorted[|sorted| - 1].timestamp <= f.timestamp {
      SellCountSnoc(sorted, f);
    } else {
      var init, last := sorted[..|sorted| - 1], sorted[|sorted| - 1];
      InsertCounts(init, f);
      SellCountSnoc(Insert(init, f), last);
    }
  }

  lemma {:induction false} SortCounts(fills: seq<Fill>)
    ensures SellCount(SortByTime(fills)) == SellCount(fills)
  {
    if fills != [] {
      SortCounts(fills[..|fills| - 1]);
      InsertCounts(SortByTime(fills[..|fills| - 1]), fills[|fills| - 1]);
    }
  }

  /** A replay reports no more results than it has sells; a live ledger gave one for each. */
  lemma {:induction false} ReportedSells(scratch: Ledger, fills: seq<Fill>)
    ensures ReplayPnl(scratch, fills).Pnl? ==> |ReplayPnl(scratch, fills).order| <= SellCount(fills)
  {
    hide ApplyFill;
    if fills != [] {
      ReportedSells(scratch, fills[..|fills| - 1]);
    }
  }

  lemma {:induction false} LiveSellCount(l: Ledger, fills: seq<Fill>)
    requires Accepted(l, fills)
    ensures |LiveSells(l, fills)| == SellCount(fills)
  {
    if fills != [] {
      AcceptedInit(l, fills);
      LiveSellCount(l, fills[..|fills| - 1]);
      hide ApplyFill;
    }
  }

  lemma FillsSnoc(log: seq<Entry>, name: string)
    requires log != []
    ensures var init, e := log[..|log| - 1], log[|log| - 1];
      && Fills(log) == Fills(init) + [e.fill]
      && OwnFills(log, name) == if e.tag == name then OwnFills(init, name) + [e.fill] else OwnFills(init, name)
  {
  }

  /** A fill of the strategy itself, or a sale by the risk rules. */
  predicate Explained(e: Entry, name: string) {
    RealForcedSale(e) && (e.tag == name || IsRiskTag(e.tag))
  }

  lemma UnforcedSnoc(log: seq<Entry>)
    requires log != []
    ensures NoForcedExit(log) <==> NoForcedExit(log[..|log| - 1]) && !IsRiskTag(log[|log| - 1].tag)
  {
    hide IsRiskTag;
    assert log == log[..|log| - 1] + [log[|log| - 1]];
  }

  lemma ExplainedSide(e: Entry, name: string)
    requires Explained(e, name)
    ensures IsRiskTag(e.tag) ==> e.fill.side.Sell?
    ensures e.tag != name ==> IsRiskTag(e.tag)
  {
  }

  lemma {:induction false} ForcedSellsAreMissing(log: seq<Entry>, name: string)
    requires !IsRiskTag(name) && forall i | 0 <= i < |log| :: Explained(log[i], name)
    ensures SellCount(OwnFills(log, name)) <= SellCount(Fills(log))
    ensures !NoForcedExit(log) ==> SellCount(OwnFills(log, name)) < SellCount(Fills(log))
  {
    hide IsRiskTag, Explained;
    if log != [] {
      hide OwnFills, Fills, SellCount, NoForcedExit;
      var init, e := log[..|log| - 1], log[|log| - 1];
      ForcedSellsAreMissing(init, name);
      FillsSnoc(log, name);
      SellCountSnoc(Fills(init), e.fill);
      SellCountSnoc(OwnFills(init, name), e.fill);
      UnforcedSnoc(log);
      ExplainedSide(e, name);
    }
  }

  lemma OwnOrForced(c: Config, l: Ledger, log: seq<Entry>)
    requires Disciplined(c, l, log)
    ensures forall i | 0 <= i < |log| :: log[i].tag == c.terms.strategyName || IsRiskTag(log[i].tag)
  {
    forall i | 0 <= i < |log| ensures log[i].tag == c.terms.strategyName || IsRiskTag(log[i].tag) {
      assert LegalMove(c, Before(l, log, i), log[i]);
    }
  }

  /** The report of a disciplined log from an empty account: it gives every sell the value it had live if and only if
      no exit was forced. */
  lemma ReportIsLiveIff(c: Config, l: Ledger, st: Store, log: seq<Entry>)
    requires l.book == EMPTY_BOOK && Disciplined(c, l, log) && !IsRiskTag(c.terms.strategyName)
    requires InSync(c.terms.strategyName, l.book, st.rows) && OwnTradesOf(st, c.terms.strategyName) == []
    requires DistinctIds(Fills(log)) && Chronological(Fills(log))
    ensures Holds(RealizedPnlByFill(OwnTradesOf(Persist(st, c.terms.strategyName, log), c.terms.strategyName)),
                  LiveSells(l, Fills(log)))
       <==> NoForcedExit(log)
  {
    hide Disciplined, InSync, OwnTradesOf, IsRiskTag, DistinctIds, Chronological, Accepted, OwnFills, Persist, OffBy,
      RealForcedSale, LiveSells, ReplayPnl, SellCount, Fills;
    var name := c.terms.strategyName;
    InSyncIsOffByNothing(name, l.book, st.rows);
    StoredOwnFills(c, l, st, [], log);
    var own := OwnFills(log, name);
    assert [] + own == own;
    OwnOrForced(c, l, log);
    DisciplinedAccepts(c, l, log);
    if NoForcedExit(log) {
      OwnFillsAreAll(log, name);
      ReplayedProfitIsLiveProfit(l, Fills(log));
    } else {
      DivergenceLaw(c, l, st, [], log);
      ForcedSellsAreMissing(log, name);
      SortCounts(own);
      ReportedSells(SCRATCH, SortByTime(own));
      LiveSellCount(l, Fills(log));
    }
  }

  /** What the sells of a run realized, each by the account as it then was. */
  function RunSells(c: Config, d: Desk, st: Store, evs: seq<Event>): seq<(int, real)> {
    if evs == [] then []
    else
      var init, ev := evs[..|evs| - 1], evs[|evs| - 1];
      var before := Run(c, d, st, init).desk;
      RunSells(c, d, st, init) + LiveSells(before.ledger, Fills(Call(c, before, ev).log))
  }

  lemma LiveSellsSnoc(l: Ledger, fills: seq<Fill>, f: Fill)
    ensures LiveSells(l, fills + [f]) == LiveSells(l, fills) + LiveSells(Replay(l, fills), [f])
  {
    hide ApplyFill;
    assert (fills + [f])[..|fills|] == fills && [f][..0] == [];
    assert LiveSells(Replay(l, fills), []) == [];
    hide Replay;
  }

  lemma JoinAssociates<T>(x: seq<T>, y: seq<T>, z: seq<T>)
    ensures x + y + z == x + (y + z)
  {
  }

  lemma NoSells(l: Ledger)
    ensures LiveSells(l, []) == []
  {
  }

  lemma {:induction false} LiveSellsAppend(l: Ledger, a: seq<Fill>, b: seq<Fill>)
    ensures LiveSells(l, a + b) == LiveSells(l, a) + LiveSells(Replay(l, a), b)
  {
    hide LiveSells, Replay;
    if b == [] {
      assert a + b == a;
      NoSells(Replay(l, a));
    } else {
      var init, f := b[..|b| - 1], b[|b| - 1];
      LiveSellsAppend(l, a, init);
      ReplayAppend(l, a, init);
      LiveSellsSnoc(l, a + init, f);
      LiveSellsSnoc(Replay(l, a), init, f);
      assert b == init + [f];
      JoinAssociates(a, init, [f]);
      JoinAssociates(LiveSells(l, a), LiveSells(Replay(l, a), init), LiveSells(Replay(l, a + init), [f]));
    }
  }

  lemma AcceptedAppend(l: Ledger, a: seq<Fill>, b: seq<Fill>)
    requires Accepted(l, a) && Accepted(Replay(l, a), b)
    ensures Accepted(l, a + b)
  {
    hide ApplyFill;
    forall i | 0 <= i < |a + b| ensures ApplyFill(Replay(l, (a + b)[..i]), (a + b)[i]).Filled? {
      if i < |a| {
        assert (a + b)[..i] == a[..i];
      } else {
        assert (a + b)[..i] == a + b[..i - |a|];
        ReplayAppend(l, a, b[..i - |a|]);
      }
    }
  }

  /** A ledger with unlimited cash and the same positions, in whatever order. */
  ghost predicate Shadows(scratch: Ledger, live: Ledger) {
    && scratch.unlimited && scratch.book.held == live.book.held
    && scratch.book.Valid() && live.book.Valid()
  }

  lemma ShadowMove(scratch: Ledger, live: Ledger, f: Fill)
    requires Shadows(scratch, live) && ApplyFill(live, f).Filled?
    ensures ApplyFill(scratch, f).Filled? && ApplyFill(scratch, f).realized == ApplyFill(live, f).realized
    ensures Shadows(After(scratch, f), After(live, f))
  {
    AfterKeepsBook(scratch, f);
    AfterKeepsBook(live, f);
    hide Notional, Profit, Averaged;
  }

  /** Replaying a log from a shadow refuses nothing and gives each sell its live value. */
  lemma {:induction false} ShadowFollows(scratch: Ledger, live: Ledger, fills: seq<Fill>)
    requires Shadows(scratch, live) && Accepted(live, fills)
    ensures Accepted(scratch, fills) && LiveSells(scratch, fills) == LiveSells(live, fills)
    ensures Shadows(Replay(scratch, fills), Replay(live, fills))
  {
    if fills != [] {
      var init, f := fills[..|fills| - 1], fills[|fills| - 1];
      AcceptedInit(live, fills);
      ShadowFollows(scratch, live, init);
      ShadowMove(Replay(scratch, init), Replay(live, init), f);
      hide ApplyFill, Shadows;
      AcceptedSnoc(scratch, init, f);
      assert fills == init + [f];
    }
  }

  /** One call of a run: what it stores under the name, and what its sells realize. */
  lemma CallReports(c: Config, initial: real, d: Desk, st: Store, earlier: seq<Entry>, ev: Event)
    requires c.terms.persist && !IsRiskTag(c.terms.strategyName) && d.ledger.book.Valid()
    requires OffBy(c.terms.strategyName, d.ledger.book, st.rows, earlier)
    requires !ev.Rebuild? && LawfulEvent(c, initial, st, ev)
    ensures var step, name := Call(c, d, ev), c.terms.strategyName;
      && OwnTradesOf(Stored(c, d, st, ev), name) == OwnTradesOf(st, name) + OwnFills(step.log, name)
      && Accepted(d.ledger, Fills(step.log)) && step.desk.ledger == Replay(d.ledger, Fills(step.log))
      && forall i | 0 <= i < |step.log| :: Explained(step.log[i], name)
  {
    hide Disciplined, PricedBy, SnapshotsKept, OffBy, Persist, Accepted, IsRiskTag, Fills, RealForcedSale, OwnFills;
    var step, name := Call(c, d, ev), c.terms.strategyName;
    CallIsOrderly(c, initial, d, st, ev);
    StoredOwnFills(c, d.ledger, st, earlier, step.log);
    DisciplinedAccepts(c, d.ledger, step.log);
    DivergenceLaw(c, d.ledger, st, earlier, step.log);
    OwnOrForced(c, d.ledger, step.log);
    if ev.SnapshotNow? {
      NothingPersisted(st, name);
      NoOwnFills(name);
    }
  }

  lemma NoOwnFills(name: string)
    ensures OwnFills([], name) == []
  {
  }

  lemma {:induction false} OwnFillsAppend(a: seq<Entry>, b: seq<Entry>, name: string)
    ensures OwnFills(a + b, name) == OwnFills(a, name) + OwnFills(b, name)
  {
    if b == [] {
      assert a + b == a;
    } else {
      OwnFillsAppend(a, b[..|b| - 1], name);
      assert (a + b)[..|a + b| - 1] == a + b[..|b| - 1];
    }
  }

  lemma {:induction false} SellCountAppend(a: seq<Fill>, b: seq<Fill>)
    ensures SellCount(a + b) == SellCount(a) + SellCount(b)
  {
    if b == [] {
      assert a + b == a;
    } else {
      SellCountAppend(a, b[..|b| - 1]);
      assert (a + b)[..|a + b| - 1] == a + b[..|b| - 1];
    }
  }

  /** One event more of a run. */
  lemma RunUnfolds(c: Config, d: Desk, st: Store, evs: seq<Event>)
    requires evs != []
    ensures var before, ev := Run(c, d, st, evs[..|evs| - 1]), evs[|evs| - 1];
      var step, after := Call(c, before.desk, ev), Run(c, d, st, evs);
      && after.log == before.log + step.log && after.desk == step.desk
      && after.store == Stored(c, before.desk, before.store, ev)
      && Fills(after.log) == Fills(before.log) + Fills(step.log)
      && RunSells(c, d, st, evs)
         == RunSells(c, d, st, evs[..|evs| - 1]) + LiveSells(before.desk.ledger, Fills(step.log))
  {
    hide Call, Stored, LiveSells;
    var before := Run(c, d, st, evs[..|evs| - 1]);
    FillsAppend(before.log, Call(c, before.desk, evs[|evs| - 1]).log);
  }

  /** Over whole runs, restarts and exceptions included: what is stored under the name, and how many sells there
      were. */
  lemma {:induction false} RunReports(c: Config, initial: real, d: Desk, st: Store, evs: seq<Event>)
    requires Persisted(c, initial, d, st, evs)
    ensures var after, name := Run(c, d, st, evs), c.terms.strategyName;
      && OwnTradesOf(after.store, name) == OwnTradesOf(st, name) + OwnFills(after.log, name)
      && |RunSells(c, d, st, evs)| == SellCount(Fills(after.log))
      && forall i | 0 <= i < |after.log| :: Explained(after.log[i], name)
  {
    if evs == [] {
      assert Fills([]) == [];
    } else {
      hide Synced, Lawful, LawfulEvent, Call, Stored, OwnTradesOf, OwnFills, LiveSells, SellCount, Fills, Accepted,
        OffBy, Explained, LogSince, RealForcedSales, Run, RunSells, Replay;
      var init, ev, name := evs[..|evs| - 1], evs[|evs| - 1], c.terms.strategyName;
      var before := Run(c, d, st, init);
      var step := Call(c, before.desk, ev);
      PersistedPrefix(c, initial, d, st, evs, |init|);
      LawfulInit(c, initial, d, st, evs);
      RunReports(c, initial, d, st, init);
      RunTracks(c, initial, d, st, init);
      RunUnfolds(c, d, st, evs);
      OwnFillsAppend(before.log, step.log, name);
      SellCountAppend(Fills(before.log), Fills(step.log));
      JoinAssociates(OwnTradesOf(st, name), OwnFills(before.log, name), OwnFills(step.log, name));
      if ev.Rebuild? {
        RestartReports(c, before.desk, before.store, ev);
      } else {
        CallReports(c, initial, before.desk, before.store, LogSince(c, d, st, init), ev);
        LiveSellCount(before.desk.ledger, Fills(step.log));
      }
    }
  }

  lemma RestartReports(c: Config, d: Desk, st: Store, ev: Event)
    requires ev.Rebuild? && c.terms.persist
    ensures var step, name := Call(c, d, ev), c.terms.strategyName;
      && step.log == [] && step.desk.ledger == ev.ledger && Stored(c, d, st, ev) == st
      && OwnFills(step.log, name) == [] && Fills(step.log) == [] && LiveSells(d.ledger, []) == [] && SellCount([]) == 0
  {
    NothingPersisted(st, c.terms.strategyName);
  }

  lemma SinceIsUnforced(c: Config, d: Desk, st: Store, evs: seq<Event>)
    requires NoForcedExit(Run(c, d, st, evs).log)
    ensures NoForcedExit(LogSince(c, d, st, evs))
  {
    hide Run, LogSince, IsRiskTag;
    SinceIsOfRun(c, d, st, evs);
    var since := LogSince(c, d, st, evs);
    forall i | 0 <= i < |since| ensures !IsRiskTag(since[i].tag) {
      assert since[i] in since;
    }
  }

  lemma UnforcedInit(c: Config, d: Desk, st: Store, evs: seq<Event>)
    requires evs != [] && NoForcedExit(Run(c, d, st, evs).log)
    ensures NoForcedExit(Run(c, d, st, evs[..|evs| - 1]).log)
    ensures NoForcedExit(LogSince(c, d, st, evs[..|evs| - 1]))
  {
    hide Call, Stored, LogSince, IsRiskTag;
    var before := Run(c, d, st, evs[..|evs| - 1]).log;
    assert forall i | 0 <= i < |before| :: before[i] == Run(c, d, st, evs).log[i];
    SinceIsUnforced(c, d, st, evs[..|evs| - 1]);
  }

  lemma ShadowRestarts(c: Config, initial: real, d: Desk, st: Store, evs: seq<Event>)
    requires Persisted(c, initial, d, st, evs) && evs != [] && evs[|evs| - 1].Rebuild?
    requires NoForcedExit(LogSince(c, d, st, evs[..|evs| - 1]))
    ensures var live, r := Run(c, d, st, evs[..|evs| - 1]).desk.ledger, evs[|evs| - 1].ledger;
      forall scratch :: Shadows(scratch, live) ==> Shadows(scratch, r)
  {
    hide Run, LogSince, SameHolding, AddsTo, Synced;
    var n := |evs| - 1;
    RestartAt(c, initial, d, st, evs, n);
    SamePositions(Run(c, d, st, evs[..n]).desk.ledger.book, evs[n].ledger.book);
    assert LawfulEvent(c, initial, Run(c, d, st, evs[..n]).store, evs[n]);
  }

  /** Where no exit was forced, the whole log replays from an unlimited ledger as it went live. */
  lemma {:induction false} UnforcedRunReplays(c: Config, initial: real, d: Desk, st: Store, evs: seq<Event>)
    requires Persisted(c, initial, d, st, evs) && d.ledger.book == EMPTY_BOOK
    requires NoForcedExit(Run(c, d, st, evs).log)
    ensures var after := Run(c, d, st, evs);
      && Accepted(SCRATCH, Fills(after.log)) && LiveSells(SCRATCH, Fills(after.log)) == RunSells(c, d, st, evs)
      && Shadows(Replay(SCRATCH, Fills(after.log)), after.desk.ledger)
  {
    if evs == [] {
      assert Fills([]) == [];
    } else {
      hide Synced, Lawful, LawfulEvent, Call, Stored, OwnTradesOf, OwnFills, LiveSells, Fills, Accepted, OffBy,
        Explained, LogSince, RealForcedSales, Shadows, Replay, Run, RunSells, NoForcedExit;
      var init, ev := evs[..|evs| - 1], evs[|evs| - 1];
      var before := Run(c, d, st, init);
      var step, scratch := Call(c, before.desk, ev), Replay(SCRATCH, Fills(before.log));
      PersistedPrefix(c, initial, d, st, evs, |init|);
      LawfulInit(c, initial, d, st, evs);
      UnforcedInit(c, d, st, evs);
      UnforcedRunReplays(c, initial, d, st, init);
      RunTracks(c, initial, d, st, init);
      RunUnfolds(c, d, st, evs);
      if ev.Rebuild? {
        RestartReports(c, before.desk, before.store, ev);
        assert Fills(before.log) + [] == Fills(before.log);
        ShadowRestarts(c, initial, d, st, evs);
      } else {
        CallReports(c, initial, before.desk, before.store, LogSince(c, d, st, init), ev);
        ShadowFollows(scratch, before.desk.ledger, Fills(step.log));
        AcceptedAppend(SCRATCH, Fills(before.log), Fills(step.log));
        ReplayAppend(SCRATCH, Fills(before.log), Fills(step.log));
        LiveSellsAppend(SCRATCH, Fills(before.log), Fills(step.log));
      }
    }
  }

  /** The report after any lawful run from an empty account, restarts and exceptions included: it gives every sell the
      value it had live if and only if no exit was forced. */
  lemma RunReportIsLiveIff(c: Config, initial: real, d: Desk, st: Store, evs: seq<Event>)
    requires Persisted(c, initial, d, st, evs) && d.ledger.book == EMPTY_BOOK
    requires OwnTradesOf(st, c.terms.strategyName) == []
    requires DistinctIds(Fills(Run(c, d, st, evs).log)) && Chronological(Fills(Run(c, d, st, evs).log))
    ensures var after := Run(c, d, st, evs);
      Holds(RealizedPnlByFill(OwnTradesOf(after.store, c.terms.strategyName)), RunSells(c, d, st, evs))
      <==> NoForcedExit(after.log)
  {
    hide Run, Synced, Lawful, DistinctIds, Chronological, Accepted, OwnFills, RunSells, LiveSells, IsRiskTag, Fills,
      ReplayPnl, SellCount, RealForcedSale, OwnTradesOf;
    var after, name := Run(c, d, st, evs), c.terms.strategyName;
    RunReports(c, initial, d, st, evs);
    var own := OwnFills(after.log, name);
    assert [] + own == own;
    if NoForcedExit(after.log) {
      OwnFillsAreAll(after.log, name);
      UnforcedRunReplays(c, initial, d, st, evs);
      ReplayedProfitIsLiveProfit(SCRATCH, Fills(after.log));
    } else {
      ForcedSellsAreMissing(after.log, name);
      SortCounts(own);
      ReportedSells(SCRATCH, SortByTime(own));
    }
  }
}
