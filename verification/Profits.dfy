/** Profit and loss per closed trade, recovered by replaying a log through a scratch ledger with unlimited cash. */
module Profits {
  import opened Domain
  import opened Ledgers

  const SCRATCH := Ledger(0.0, true, EMPTY_BOOK, 0.0)

  /** Inserting a fill after every fill that is not later. */
  function Insert(sorted: seq<Fill>, f: Fill): seq<Fill> {
    if sorted == [] || sorted[|sorted| - 1].timestamp <= f.timestamp then sorted + [f]
    else Insert(sorted[..|sorted| - 1], f) + [sorted[|sorted| - 1]]
  }

  /** The stable sort by timestamp. */
  function SortByTime(fills: seq<Fill>): seq<Fill> {
    if fills == [] then [] else Insert(SortByTime(fills[..|fills| - 1]), fills[|fills| - 1])
  }

  ghost predicate Chronological(fills: seq<Fill>) {
    forall i | 0 < i < |fills| :: fills[i - 1].timestamp <= fills[i].timestamp
  }

  /** The fills of one instant, in order. */
  ghost function Instant(fills: seq<Fill>, t: int): seq<Fill> {
    if fills == [] then []
    else Instant(fills[..|fills| - 1], t) + (if fills[|fills| - 1].timestamp == t then [fills[|fills| - 1]] else [])
  }

  lemma InstantSnoc(fills: seq<Fill>, f: Fill, t: int)
    ensures Instant(fills + [f], t) == Instant(fills, t) + (if f.timestamp == t then [f] else [])
  {
    assert (fills + [f])[..|fills|] == fills;
  }

  lemma {:induction false} InsertPermutes(sorted: seq<Fill>, f: Fill)
    ensures multiset(Insert(sorted, f)) == multiset(sorted) + multiset{f}
    ensures forall g :: g in Insert(sorted, f) <==> g in sorted || g == f
  {
    if sorted != [] && sorted[|sorted| - 1].timestamp > f.timestamp {
      assert sorted == sorted[..|sorted| - 1] + [sorted[|sorted| - 1]];
      InsertPermutes(sorted[..|sorted| - 1], f);
    }
  }

  lemma {:induction false} InsertSorts(sorted: seq<Fill>, f: Fill)
    requires Chronological(sorted)
    ensures Chronological(Insert(sorted, f))
  {
    if sorted != [] && sorted[|sorted| - 1].timestamp > f.timestamp {
      InsertSorts(sorted[..|sorted| - 1], f);
    }
  }

  lemma {:induction false} InsertIsStable(sorted: seq<Fill>, f: Fill, t: int)
    ensures Instant(Insert(sorted, f), t) == Instant(sorted, t) + (if f.timestamp == t then [f] else [])
  {
    if sorted == [] || sorted[|sorted| - 1].timestamp <= f.timestamp {
      InstantSnoc(sorted, f, t);
    } else {
      var init, last := sorted[..|sorted| - 1], sorted[|sorted| - 1];
      InsertIsStable(init, f, t);
      InstantSnoc(Insert(init, f), last, t);
    }
  }

  /** The sort is a permutation, orders the log, and keeps the order of equal timestamps. */
  lemma {:induction false} SortIsStable(fills: seq<Fill>, t: int)
    ensures Chronological(SortByTime(fills))
    ensures multiset(SortByTime(fills)) == multiset(fills)
    ensures Instant(SortByTime(fills), t) == Instant(fills, t)
  {
    if fills != [] {
      var init, last := fills[..|fills| - 1], fills[|fills| - 1];
      assert fills == init + [last];
      SortIsStable(init, t);
      InsertSorts(SortByTime(init), last);
      InsertIsStable(SortByTime(init), last, t);
      InsertPermutes(SortByTime(init), last);
    }
  }

  lemma {:induction false} SortKeepsChronological(fills: seq<Fill>)
    requires Chronological(fills)
    ensures SortByTime(fills) == fills
  {
    if fills != [] {
      SortKeepsChronological(fills[..|fills| - 1]);
    }
  }

  /** The dictionary of results: keys in insertion order, and their values. */
  datatype PnlResult = Pnl(order: seq<int>, byFill: map<int, real>) | Failed(error: FillError)

  function Recorded(r: PnlResult, id: int, pnl: real): PnlResult
    requires r.Pnl?
  {
    Pnl(if id in r.byFill then r.order else r.order + [id], r.byFill[id := pnl])
  }

  /** The replay of a log from a scratch ledger; the first refused fill ends it. */
  function ReplayPnl(scratch: Ledger, fills: seq<Fill>): PnlResult {
    if fills == [] then Pnl([], map[])
    else
      var before, f := ReplayPnl(scratch, fills[..|fills| - 1]), fills[|fills| - 1];
      if before.Failed? then before
      else
        match ApplyFill(Replay(scratch, fills[..|fills| - 1]), f)
        case Refused(error, _) => Failed(error)
        case Filled(_, pnl) => if f.side.Sell? then Recorded(before, f.id, pnl) else before
  }

  function RealizedPnlByFill(trades: seq<Fill>): PnlResult {
    ReplayPnl(SCRATCH, SortByTime(trades))
  }

  /** What the live ledger's `apply_fill` returned for each sell, in order. */
  function LiveSells(l: Ledger, fills: seq<Fill>): seq<(int, real)> {
    if fills == [] then []
    else
      var before, f := Replay(l, fills[..|fills| - 1]), fills[|fills| - 1];
      LiveSells(l, fills[..|fills| - 1])
      + (match ApplyFill(before, f)
         case Filled(_, pnl) => if f.side.Sell? then [(f.id, pnl)] else []
         case Refused(_, _) => [])
  }

  function Sum(sells: seq<(int, real)>): real {
    if sells == [] then 0.0 else Sum(sells[..|sells| - 1]) + sells[|sells| - 1].1
  }

  ghost predicate DistinctIds(fills: seq<Fill>) {
    forall i, j | 0 <= i < j < |fills| :: fills[i].id != fills[j].id
  }

  /** The dictionary holds exactly these results, in this order. */
  ghost predicate Holds(r: PnlResult, sells: seq<(int, real)>) {
    && r.Pnl? && |r.order| == |sells|
    && (forall i | 0 <= i < |sells| :: r.order[i] == sells[i].0 && sells[i].0 in r.byFill
                                     && r.byFill[sells[i].0] == sells[i].1)
    && (forall id | id in r.byFill :: id in r.order)
  }

  lemma SameMove(live: Ledger, scratch: Ledger, f: Fill)
    requires live.book == scratch.book && scratch.unlimited && ApplyFill(live, f).Filled?
    ensures ApplyFill(scratch, f).Filled? && ApplyFill(scratch, f).realized == ApplyFill(live, f).realized
    ensures After(scratch, f).book == After(live, f).book && After(scratch, f).unlimited
    ensures f.side.Sell? ==> After(live, f).realizedPl == live.realizedPl + ApplyFill(live, f).realized
    ensures f.side.Buy? ==> After(live, f).realizedPl == live.realizedPl
  {
    hide Notional, Profit, Averaged;
  }

  lemma DistinctSnoc(fills: seq<Fill>, f: Fill)
    requires DistinctIds(fills + [f])
    ensures DistinctIds(fills) && forall g | g in fills :: g.id != f.id
  {
    var all := fills + [f];
    assert all[|fills|] == f;
    forall i, j | 0 <= i < j < |fills| ensures fills[i].id != fills[j].id {
      assert all[i].id != all[j].id;
    }
    forall g | g in fills ensures g.id != f.id {
      var i :| 0 <= i < |fills| && fills[i] == g;
      assert all[i].id != all[|fills|].id;
    }
  }

  lemma {:induction false} SellsAreFills(l: Ledger, fills: seq<Fill>, id: int)
    requires forall g | g in fills :: g.id != id
    ensures forall sell | sell in LiveSells(l, fills) :: sell.0 != id
  {
    if fills != [] {
      SellsAreFills(l, fills[..|fills| - 1], id);
    }
  }

  lemma RecordedHolds(r: PnlResult, sells: seq<(int, real)>, id: int, pnl: real)
    requires Holds(r, sells) && forall sell | sell in sells :: sell.0 != id
    ensures Holds(Recorded(r, id, pnl), sells + [(id, pnl)])
  {
    forall i | 0 <= i < |sells| ensures sells[i].0 != id {
      assert sells[i] in sells;
    }
  }

  /** Replaying from the scratch ledger follows the live one: nothing is refused and the books stay the same. */
  lemma {:induction false} ScratchFollowsLive(l: Ledger, scratch: Ledger, fills: seq<Fill>)
    requires l.book == scratch.book && scratch.unlimited && Accepted(l, fills)
    ensures Accepted(scratch, fills)
    ensures Replay(scratch, fills).book == Replay(l, fills).book && Replay(scratch, fills).unlimited
  {
    if fills != [] {
      var init, f := fills[..|fills| - 1], fills[|fills| - 1];
      assert fills == init + [f];
      AcceptedInit(l, fills);
      ScratchFollowsLive(l, scratch, init);
      SameMove(Replay(l, init), Replay(scratch, init), f);
      AcceptedSnoc(scratch, init, f);
    }
  }

  lemma {:induction false} LiveSellsSumToRealized(l: Ledger, fills: seq<Fill>)
    requires Accepted(l, fills)
    ensures Sum(LiveSells(l, fills)) == Replay(l, fills).realizedPl - l.realizedPl
  {
    if fills != [] {
      var init, f := fills[..|fills| - 1], fills[|fills| - 1];
      AcceptedInit(l, fills);
      LiveSellsSumToRealized(l, init);
      SameMove(Replay(l, init), Replay(l, init).(unlimited := true), f);
      hide ApplyFill, Accepted;
      if f.side.Sell? {
        assert LiveSells(l, fills)[..|LiveSells(l, init)|] == LiveSells(l, init);
      } else {
        assert LiveSells(l, fills) == LiveSells(l, init);
      }
    }
  }

  lemma RecordsSnoc(l: Ledger, scratch: Ledger, fills: seq<Fill>, f: Fill)
    requires ReplayPnl(scratch, fills).Pnl?
    requires ApplyFill(Replay(scratch, fills), f).Filled? && ApplyFill(Replay(l, fills), f).Filled?
    ensures ReplayPnl(scratch, fills + [f])
         == if f.side.Sell? then
              Recorded(ReplayPnl(scratch, fills), f.id, ApplyFill(Replay(scratch, fills), f).realized)
            else ReplayPnl(scratch, fills)
    ensures LiveSells(l, fills + [f])
         == LiveSells(l, fills) + (if f.side.Sell? then [(f.id, ApplyFill(Replay(l, fills), f).realized)] else [])
  {
    hide ApplyFill;
    assert (fills + [f])[..|fills|] == fills;
  }

  lemma LiveValuesSnoc(l: Ledger, scratch: Ledger, init: seq<Fill>, f: Fill)
    requires l.book == scratch.book && scratch.unlimited && Accepted(l, init)
    requires ApplyFill(Replay(l, init), f).Filled? && forall g | g in init :: g.id != f.id
    requires Holds(ReplayPnl(scratch, init), LiveSells(l, init))
    ensures Holds(ReplayPnl(scratch, init + [f]), LiveSells(l, init + [f]))
  {
    HoldsIsPnl(ReplayPnl(scratch, init), LiveSells(l, init));
    hide ApplyFill, Recorded, Accepted, LiveSells, ReplayPnl, Holds, Replay;
    ScratchFollowsLive(l, scratch, init);
    SameMove(Replay(l, init), Replay(scratch, init), f);
    SellsAreFills(l, init, f.id);
    RecordsSnoc(l, scratch, init, f);
    if f.side.Sell? {
      RecordedHolds(ReplayPnl(scratch, init), LiveSells(l, init), f.id, ApplyFill(Replay(l, init), f).realized);
    } else {
      assert LiveSells(l, init + [f]) == LiveSells(l, init);
    }
  }

  lemma {:induction false} ReplayGivesLiveValues(l: Ledger, scratch: Ledger, fills: seq<Fill>)
    requires l.book == scratch.book && scratch.unlimited && Accepted(l, fills) && DistinctIds(fills)
    ensures Holds(ReplayPnl(scratch, fills), LiveSells(l, fills))
  {
    if fills != [] {
      var init, f := fills[..|fills| - 1], fills[|fills| - 1];
      assert fills == init + [f];
      hide DistinctIds, Accepted, ApplyFill, Holds, ReplayPnl, LiveSells;
      DistinctSnoc(init, f);
      AcceptedInit(l, fills);
      ReplayGivesLiveValues(l, scratch, init);
      LiveValuesSnoc(l, scratch, init, f);
    }
  }

  lemma HoldsIsPnl(r: PnlResult, sells: seq<(int, real)>)
    requires Holds(r, sells)
    ensures r.Pnl?
  {
  }

  lemma AcceptedSnoc(l: Ledger, fills: seq<Fill>, f: Fill)
    requires Accepted(l, fills) && ApplyFill(Replay(l, fills), f).Filled?
    ensures Accepted(l, fills + [f])
  {
    var all := fills + [f];
    forall i | 0 <= i < |all| ensures ApplyFill(Replay(l, all[..i]), all[i]).Filled? {
      assert all[..i] == if i < |fills| then fills[..i] else fills;
    }
  }

  /** Replayed profit is live profit, for every chronological log with distinct identifiers that a portfolio starting
      empty accepted, whatever its cash: the scratch ledger refuses nothing, ends with the same positions, gives each
      sell the value it had live, and these values sum to the live realized total. */
  lemma ReplayedProfitIsLiveProfit(l: Ledger, fills: seq<Fill>)
    requires l.book == EMPTY_BOOK && Accepted(l, fills) && DistinctIds(fills) && Chronological(fills)
    ensures Holds(RealizedPnlByFill(fills), LiveSells(l, fills))
    ensures Replay(SCRATCH, SortByTime(fills)).book == Replay(l, fills).book
    ensures Sum(LiveSells(l, fills)) == Replay(l, fills).realizedPl - l.realizedPl
  {
    SortKeepsChronological(fills);
    ScratchFollowsLive(l, SCRATCH, fills);
    LiveSellsSumToRealized(l, fills);
    ReplayGivesLiveValues(l, SCRATCH, fills);
  }
}
