/** Several strategies over one database: whatever the others do, each one's account and its share of the tables are
    those of its own calls run alone. */
module Independence {
  import opened Domain
  import opened Ledgers
  import opened Runs
  import opened Stores
  import opened Trading

  datatype World = World(desks: map<string, Desk>, store: Store)

  /** An interleaving of calls, each on the engine of the strategy it names. */
  function RunAll(cs: string -> Config, w: World, calls: seq<(string, Event)>): World {
    if calls == [] then w
    else
      var before, (name, ev) := RunAll(cs, w, calls[..|calls| - 1]), calls[|calls| - 1];
      if name !in before.desks then before
      else
        var d := before.desks[name];
        World(before.desks[name := Call(cs(name), d, ev).desk], Stored(cs(name), d, before.store, ev))
  }

  function Mine(calls: seq<(string, Event)>, name: string): seq<Event> {
    if calls == [] then []
    else
      var (n, ev) := calls[|calls| - 1];
      Mine(calls[..|calls| - 1], name) + (if n == name then [ev] else [])
  }

  function OwnRows(rows: map<Key, Row>, name: string): map<Symbol, Row> {
    map key | key in rows && key.0 == name :: key.1 := rows[key]
  }

  function OwnSnapshots(snapshots: seq<Snapshot>, name: string): seq<Snapshot> {
    if snapshots == [] then []
    else
      var last := snapshots[|snapshots| - 1];
      OwnSnapshots(snapshots[..|snapshots| - 1], name) + (if last.strategyName == name then [last] else [])
  }

  function OwnTrades(trades: seq<Trade>, name: string): seq<Trade> {
    if trades == [] then []
    else
      var last := trades[|trades| - 1];
      OwnTrades(trades[..|trades| - 1], name) + (if last.strategyName == name then [last] else [])
  }

  /** Two databases hold the same for one strategy: its position rows, its snapshots and the trades under its name. */
  ghost predicate SameFor(name: string, a: Store, b: Store) {
    && OwnRows(a.rows, name) == OwnRows(b.rows, name)
    && OwnSnapshots(a.snapshots, name) == OwnSnapshots(b.snapshots, name)
    && OwnTrades(a.trades, name) == OwnTrades(b.trades, name)
  }

  lemma OwnRowsLookup(rows: map<Key, Row>, name: string, s: Symbol)
    ensures s in OwnRows(rows, name) <==> (name, s) in rows
    ensures (name, s) in rows ==> OwnRows(rows, name)[s] == rows[(name, s)]
  {
  }

  lemma OwnRowsFrame(rows: map<Key, Row>, rows': map<Key, Row>, name: string)
    requires forall s :: (name, s) in rows <==> (name, s) in rows'
    requires forall s :: (name, s) in rows ==> rows[(name, s)] == rows'[(name, s)]
    ensures OwnRows(rows, name) == OwnRows(rows', name)
  {
    forall s ensures s in OwnRows(rows, name) <==> s in OwnRows(rows', name)
             ensures s in OwnRows(rows, name) ==> OwnRows(rows, name)[s] == OwnRows(rows', name)[s] {
      OwnRowsLookup(rows, name, s);
      OwnRowsLookup(rows', name, s);
    }
  }

  lemma Appended(st: Store, name: string, t: Trade, s: Snapshot)
    ensures OwnTrades(st.trades + [t], name)
         == OwnTrades(st.trades, name) + (if t.strategyName == name then [t] else [])
    ensures OwnSnapshots(st.snapshots + [s], name)
         == OwnSnapshots(st.snapshots, name) + (if s.strategyName == name then [s] else [])
  {
    assert (st.trades + [t])[..|st.trades|] == st.trades;
    assert (st.snapshots + [s])[..|st.snapshots|] == st.snapshots;
  }

  lemma UpsertFrame(rows: map<Key, Row>, f: Fill, tag: string, name: string)
    requires tag != name && UpsertPosition(rows, f, tag).Some?
    ensures OwnRows(UpsertPosition(rows, f, tag).value, name) == OwnRows(rows, name)
  {
    hide AveragedRow;
    OwnRowsFrame(UpsertPosition(rows, f, tag).value, rows, name);
  }

  /** An entry of one strategy changes nothing that another one owns. */
  lemma EntryFrame(st: Store, writer: string, e: Entry, name: string)
    requires writer != name && e.tag != name
    ensures SameFor(name, SaveEntry(st, writer, e), st)
  {
    var account := if e.snapshot.Some? then e.snapshot.value else Account(0, 0.0, 0.0);
    Appended(st, name, Trade(e.fill, e.tag), Snapshot(writer, account));
    if UpsertPosition(st.rows, e.fill, e.tag).Some? {
      UpsertFrame(st.rows, e.fill, e.tag, name);
    }
    hide UpsertPosition;
  }

  lemma UpsertLocal(a: map<Key, Row>, b: map<Key, Row>, f: Fill, name: string)
    requires OwnRows(a, name) == OwnRows(b, name)
    ensures UpsertPosition(a, f, name).Some? <==> UpsertPosition(b, f, name).Some?
    ensures UpsertPosition(a, f, name).Some? ==>
              OwnRows(UpsertPosition(a, f, name).value, name) == OwnRows(UpsertPosition(b, f, name).value, name)
  {
    OwnRowsLookup(a, name, f.symbol);
    OwnRowsLookup(b, name, f.symbol);
    if UpsertPosition(a, f, name).Some? {
      var a', b' := UpsertPosition(a, f, name).value, UpsertPosition(b, f, name).value;
      hide AveragedRow;
      forall s
        ensures (name, s) in a' <==> (name, s) in b'
        ensures (name, s) in a' ==> a'[(name, s)] == b'[(name, s)] {
        OwnRowsLookup(a, name, s);
        OwnRowsLookup(b, name, s);
      }
      OwnRowsFrame(a', b', name);
    }
  }

  /** What an entry does to its own strategy's share depends on that share alone. */
  lemma EntryLocal(a: Store, b: Store, name: string, e: Entry)
    requires SameFor(name, a, b) && (e.tag == name || IsRiskTag(e.tag)) && !IsRiskTag(name)
    ensures SameFor(name, SaveEntry(a, name, e), SaveEntry(b, name, e))
  {
    var snapshot := Snapshot(name, if e.snapshot.Some? then e.snapshot.value else Account(0, 0.0, 0.0));
    Appended(a, name, Trade(e.fill, e.tag), snapshot);
    Appended(b, name, Trade(e.fill, e.tag), snapshot);
    if e.tag == name {
      UpsertLocal(a.rows, b.rows, e.fill, name);
    } else {
      if UpsertPosition(a.rows, e.fill, e.tag).Some? {
        UpsertFrame(a.rows, e.fill, e.tag, name);
      }
      if UpsertPosition(b.rows, e.fill, e.tag).Some? {
        UpsertFrame(b.rows, e.fill, e.tag, name);
      }
    }
    hide UpsertPosition;
  }

  ghost predicate OwnOrRisk(log: seq<Entry>, name: string) {
    forall i | 0 <= i < |log| :: log[i].tag == name || IsRiskTag(log[i].tag)
  }

  lemma {:induction false} PersistFrame(st: Store, writer: string, log: seq<Entry>, name: string)
    requires writer != name && OwnOrRisk(log, writer) && !IsRiskTag(name)
    ensures SameFor(name, Persist(st, writer, log), st)
  {
    if log != [] {
      PersistFrame(st, writer, log[..|log| - 1], name);
      hide SaveEntry, OwnRows;
      EntryFrame(Persist(st, writer, log[..|log| - 1]), writer, log[|log| - 1], name);
    }
  }

  lemma {:induction false} PersistLocal(a: Store, b: Store, name: string, log: seq<Entry>)
    requires SameFor(name, a, b) && OwnOrRisk(log, name) && !IsRiskTag(name)
    ensures SameFor(name, Persist(a, name, log), Persist(b, name, log))
  {
    if log != [] {
      var init := log[..|log| - 1];
      PersistLocal(a, b, name, init);
      hide SaveEntry, OwnRows;
      EntryLocal(Persist(a, name, init), Persist(b, name, init), name, log[|log| - 1]);
    }
  }

  lemma CallTags(c: Config, initial: real, d: Desk, st: Store, ev: Event)
    requires d.ledger.book.Valid() && LawfulEvent(c, initial, st, ev)
    ensures OwnOrRisk(Call(c, d, ev).log, c.terms.strategyName)
    ensures Call(c, d, ev).desk.ledger.book.Valid()
  {
    if !ev.Rebuild? {
      CallIsOrderly(c, initial, d, st, ev);
      var log := Call(c, d, ev).log;
      ReplayKeepsBook(d.ledger, Fills(log));
      forall i | 0 <= i < |log| ensures log[i].tag == c.terms.strategyName || IsRiskTag(log[i].tag) {
        assert LegalMove(c, Before(d.ledger, log, i), log[i]);
      }
    }
  }

  lemma StoredFrame(c: Config, initial: real, d: Desk, st: Store, ev: Event, name: string)
    requires d.ledger.book.Valid() && LawfulEvent(c, initial, st, ev)
    requires c.terms.strategyName != name && !IsRiskTag(name)
    ensures SameFor(name, Stored(c, d, st, ev), st)
  {
    var writer := c.terms.strategyName;
    CallTags(c, initial, d, st, ev);
    PersistFrame(st, writer, Call(c, d, ev).log, name);
    if ev.SnapshotNow? && GetAccount(d.ledger, ev.m, ev.k).Some? {
      Appended(st, name, Trade(Fill(0, "", Buy, 0.0, 0.0, 0.0, 0), ""),
               Snapshot(writer, GetAccount(d.ledger, ev.m, ev.k).value));
    }
  }

  lemma StoredLocal(c: Config, initial: real, d: Desk, a: Store, b: Store, ev: Event)
    requires d.ledger.book.Valid() && LawfulEvent(c, initial, a, ev)
    requires SameFor(c.terms.strategyName, a, b) && !IsRiskTag(c.terms.strategyName)
    ensures SameFor(c.terms.strategyName, Stored(c, d, a, ev), Stored(c, d, b, ev))
  {
    var name := c.terms.strategyName;
    CallTags(c, initial, d, a, ev);
    PersistLocal(a, b, name, Call(c, d, ev).log);
    if ev.SnapshotNow? && GetAccount(d.ledger, ev.m, ev.k).Some? {
      var snapshot := Snapshot(name, GetAccount(d.ledger, ev.m, ev.k).value);
      Appended(a, name, Trade(Fill(0, "", Buy, 0.0, 0.0, 0.0, 0), ""), snapshot);
      Appended(b, name, Trade(Fill(0, "", Buy, 0.0, 0.0, 0.0, 0), ""), snapshot);
    }
  }

  lemma {:induction false} OwnSnapshotsMembers(snapshots: seq<Snapshot>, name: string)
    ensures forall s :: s in OwnSnapshots(snapshots, name) <==> s in snapshots && s.strategyName == name
  {
    if snapshots != [] {
      OwnSnapshotsMembers(snapshots[..|snapshots| - 1], name);
      assert snapshots == snapshots[..|snapshots| - 1] + [snapshots[|snapshots| - 1]];
    }
  }

  lemma LatestIsOwn(snapshots: seq<Snapshot>, name: string, s: Snapshot)
    ensures IsLatest(snapshots, name, s) <==> IsLatest(OwnSnapshots(snapshots, name), name, s)
  {
    OwnSnapshotsMembers(snapshots, name);
    hide OwnSnapshots;
  }

  lemma ResumingIsLocal(a: seq<Snapshot>, b: seq<Snapshot>, name: string, initial: real, cash: real)
    requires OwnSnapshots(a, name) == OwnSnapshots(b, name) && MayResumeWith(a, name, initial, cash)
    ensures MayResumeWith(b, name, initial, cash)
  {
    OwnSnapshotsMembers(a, name);
    OwnSnapshotsMembers(b, name);
    hide OwnSnapshots, IsLatest;
    if s :| s in a && s.strategyName == name {
      assert s in OwnSnapshots(b, name);
      var latest :| IsLatest(a, name, latest) && latest.account.cash == cash;
      LatestIsOwn(a, name, latest);
      LatestIsOwn(b, name, latest);
    } else {
      assert forall s | s in b :: s.strategyName != name;
    }
  }

  lemma OpenPositionsAreOwnRows(rows: map<Key, Row>, name: string, s: Symbol)
    ensures s in OpenPositions(rows, name) <==> s in OwnRows(rows, name)
    ensures s in OwnRows(rows, name) ==> OpenPositions(rows, name)[s] == HoldingOf(OwnRows(rows, name)[s])
  {
    OwnRowsLookup(rows, name, s);
    assert s in OpenPositions(rows, name) <==> (name, s) in rows;
  }

  /** A restart reads nothing but the strategy's own share. */
  lemma RebuildIsLocal(name: string, initial: real, a: Store, b: Store, l: Ledger)
    requires SameFor(name, a, b) && RebuiltFrom(a, name, initial, l)
    ensures RebuiltFrom(b, name, initial, l)
  {
    hide MayResumeWith, OpenPositions, OwnRows, OwnSnapshots, OwnTrades;
    ResumingIsLocal(a.snapshots, b.snapshots, name, initial, l.cash);
    forall s
      ensures s in OpenPositions(a.rows, name) <==> s in OpenPositions(b.rows, name)
      ensures s in OpenPositions(a.rows, name) ==> OpenPositions(a.rows, name)[s] == OpenPositions(b.rows, name)[s] {
      OpenPositionsAreOwnRows(a.rows, name, s);
      OpenPositionsAreOwnRows(b.rows, name, s);
    }
    assert OpenPositions(a.rows, name) == OpenPositions(b.rows, name);
  }

  /** Each engine is configured under its own name, which is no risk tag, and starts from a proper book. */
  ghost predicate Separate(cs: string -> Config, w: World) {
    forall name | name in w.desks ::
      cs(name).terms.strategyName == name && !IsRiskTag(name) && w.desks[name].ledger.book.Valid()
  }

  /** Every call in the interleaving is lawful against the shared database as it then is. */
  ghost predicate LawfulAll(cs: string -> Config, initial: real, w: World, calls: seq<(string, Event)>) {
    forall i | 0 <= i < |calls| ::
      calls[i].0 in w.desks && LawfulEvent(cs(calls[i].0), initial, RunAll(cs, w, calls[..i]).store, calls[i].1)
  }

  lemma LawfulAllInit(cs: string -> Config, initial: real, w: World, calls: seq<(string, Event)>)
    requires LawfulAll(cs, initial, w, calls) && calls != []
    ensures LawfulAll(cs, initial, w, calls[..|calls| - 1])
  {
    var init := calls[..|calls| - 1];
    forall i | 0 <= i < |init|
      ensures init[i].0 in w.desks
      ensures LawfulEvent(cs(init[i].0), initial, RunAll(cs, w, init[..i]).store, init[i].1) {
      assert init[..i] == calls[..i];
    }
  }

  lemma {:induction false} RunAllKeepsBooks(cs: string -> Config, initial: real, w: World, calls: seq<(string, Event)>)
    requires Separate(cs, w) && LawfulAll(cs, initial, w, calls)
    ensures RunAll(cs, w, calls).desks.Keys == w.desks.Keys && Separate(cs, RunAll(cs, w, calls))
  {
    if calls != [] {
      var before := RunAll(cs, w, calls[..|calls| - 1]);
      var (name, ev) := calls[|calls| - 1];
      LawfulAllInit(cs, initial, w, calls);
      RunAllKeepsBooks(cs, initial, w, calls[..|calls| - 1]);
      CallTags(cs(name), initial, before.desks[name], before.store, ev);
    }
  }

  lemma LawfulSnoc(c: Config, initial: real, d: Desk, st: Store, evs: seq<Event>, ev: Event)
    requires Lawful(c, initial, d, st, evs) && LawfulEvent(c, initial, Run(c, d, st, evs).store, ev)
    ensures Lawful(c, initial, d, st, evs + [ev])
    ensures Run(c, d, st, evs + [ev]).desk == Call(c, Run(c, d, st, evs).desk, ev).desk
    ensures Run(c, d, st, evs + [ev]).store == Stored(c, Run(c, d, st, evs).desk, Run(c, d, st, evs).store, ev)
  {
    var all := evs + [ev];
    assert all[..|evs|] == evs;
    forall i | 0 <= i < |all| ensures LawfulEvent(c, initial, Run(c, d, st, all[..i]).store, all[i]) {
      if i < |evs| {
        assert all[..i] == evs[..i];
      }
    }
  }

  lemma RunAllSnoc(cs: string -> Config, w: World, init: seq<(string, Event)>, n: string, ev: Event)
    requires n in RunAll(cs, w, init).desks
    ensures var before := RunAll(cs, w, init);
      RunAll(cs, w, init + [(n, ev)])
      == World(before.desks[n := Call(cs(n), before.desks[n], ev).desk],
               Stored(cs(n), before.desks[n], before.store, ev))
  {
    assert (init + [(n, ev)])[..|init|] == init;
    hide Stored, Call;
  }

  lemma MineSnoc(init: seq<(string, Event)>, n: string, ev: Event, name: string)
    ensures Mine(init + [(n, ev)], name) == if n == name then Mine(init, name) + [ev] else Mine(init, name)
  {
    assert (init + [(n, ev)])[..|init|] == init;
  }

  lemma LawfulIsLocal(c: Config, initial: real, a: Store, b: Store, ev: Event)
    requires LawfulEvent(c, initial, a, ev) && SameFor(c.terms.strategyName, a, b)
    ensures LawfulEvent(c, initial, b, ev)
  {
    hide SameFor, RebuiltFrom;
    if ev.Rebuild? {
      RebuildIsLocal(c.terms.strategyName, initial, a, b, ev.ledger);
    }
  }

  lemma SameForTransitive(name: string, a: Store, b: Store, c: Store)
    requires SameFor(name, a, b) && SameFor(name, b, c)
    ensures SameFor(name, a, c)
  {
  }

  lemma OwnStep(c: Config, initial: real, d: Desk, st: Store, evs: seq<Event>, shared: Store, ev: Event)
    requires Lawful(c, initial, d, st, evs) && !IsRiskTag(c.terms.strategyName)
    requires Run(c, d, st, evs).desk.ledger.book.Valid()
    requires SameFor(c.terms.strategyName, shared, Run(c, d, st, evs).store) && LawfulEvent(c, initial, shared, ev)
    ensures Run(c, d, st, evs + [ev]).desk == Call(c, Run(c, d, st, evs).desk, ev).desk
    ensures SameFor(c.terms.strategyName, Stored(c, Run(c, d, st, evs).desk, shared, ev),
                    Run(c, d, st, evs + [ev]).store)
    ensures Lawful(c, initial, d, st, evs + [ev])
  {
    hide SameFor, Stored, Call, Lawful, LawfulEvent, Run, IsRiskTag;
    var alone := Run(c, d, st, evs);
    StoredLocal(c, initial, alone.desk, shared, alone.store, ev);
    LawfulIsLocal(c, initial, shared, alone.store, ev);
    LawfulSnoc(c, initial, d, st, evs, ev);
  }

  lemma OtherStep(c: Config, initial: real, d: Desk, st: Store, ev: Event, name: string, alone: Store)
    requires d.ledger.book.Valid() && LawfulEvent(c, initial, st, ev)
    requires c.terms.strategyName != name && !IsRiskTag(name) && SameFor(name, st, alone)
    ensures SameFor(name, Stored(c, d, st, ev), alone)
  {
    hide SameFor, Stored, LawfulEvent;
    StoredFrame(c, initial, d, st, ev, name);
    SameForTransitive(name, Stored(c, d, st, ev), st, alone);
  }

  lemma IndependentStep(cs: string -> Config, initial: real, w: World, init: seq<(string, Event)>, n: string,
                        ev: Event, name: string)
    requires Separate(cs, w) && name in w.desks && n in w.desks
    requires RunAll(cs, w, init).desks.Keys == w.desks.Keys && Separate(cs, RunAll(cs, w, init))
    requires LawfulEvent(cs(n), initial, RunAll(cs, w, init).store, ev)
    requires RunAll(cs, w, init).desks[name] == Run(cs(name), w.desks[name], w.store, Mine(init, name)).desk
    requires SameFor(name, RunAll(cs, w, init).store, Run(cs(name), w.desks[name], w.store, Mine(init, name)).store)
    requires Lawful(cs(name), initial, w.desks[name], w.store, Mine(init, name))
    ensures var calls := init + [(n, ev)];
      && name in RunAll(cs, w, calls).desks
      && RunAll(cs, w, calls).desks[name] == Run(cs(name), w.desks[name], w.store, Mine(calls, name)).desk
      && SameFor(name, RunAll(cs, w, calls).store, Run(cs(name), w.desks[name], w.store, Mine(calls, name)).store)
      && Lawful(cs(name), initial, w.desks[name], w.store, Mine(calls, name))
  {
    hide SameFor, Stored, Call, RunAll, Mine, Lawful, LawfulEvent, Run, IsRiskTag;
    RunAllSnoc(cs, w, init, n, ev);
    MineSnoc(init, n, ev, name);
    var before, alone := RunAll(cs, w, init), Run(cs(name), w.desks[name], w.store, Mine(init, name));
    if n == name {
      OwnStep(cs(name), initial, w.desks[name], w.store, Mine(init, name), before.store, ev);
    } else {
      OtherStep(cs(n), initial, before.desks[n], before.store, ev, name, alone.store);
    }
  }

  /** Independence: in every lawful interleaving, restarts included, a strategy ends with the account it reaches
      alone, its rows, snapshots and trades are those of its run alone, and that run is lawful too. */
  lemma {:induction false} StrategiesAreIndependent(cs: string -> Config, initial: real, w: World,
                                                    calls: seq<(string, Event)>, name: string)
    requires Separate(cs, w) && LawfulAll(cs, initial, w, calls) && name in w.desks
    ensures name in RunAll(cs, w, calls).desks
    ensures RunAll(cs, w, calls).desks[name] == Run(cs(name), w.desks[name], w.store, Mine(calls, name)).desk
    ensures SameFor(name, RunAll(cs, w, calls).store, Run(cs(name), w.desks[name], w.store, Mine(calls, name)).store)
    ensures Lawful(cs(name), initial, w.desks[name], w.store, Mine(calls, name))
  {
    if calls != [] {
      var init := calls[..|calls| - 1];
      var (n, ev) := calls[|calls| - 1];
      LawfulAllInit(cs, initial, w, calls);
      StrategiesAreIndependent(cs, initial, w, init, name);
      RunAllKeepsBooks(cs, initial, w, init);
      IndependentStep(cs, initial, w, init, n, ev, name);
    }
  }
}
