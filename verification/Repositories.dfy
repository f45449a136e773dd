/** The SQL repository as an object: three tables, each method one committed transaction. */
module Repositories {
  import opened Domain
  import opened Ledgers
  import opened Portfolios
  import opened Profits
  import opened Stores

  class SqlTradeRepository {
    var trades: seq<Trade>
    var rows: map<Key, Row>
    var snapshots: seq<Snapshot>

    /** No position row is kept at or below nothing. */
    ghost predicate Valid()
      reads this
    {
      forall key | key in rows :: rows[key].quantity > 0.0
    }

    function View(): Store
      reads this
    {
      Store(trades, rows, snapshots)
    }

    constructor ()
      ensures Valid() && View() == EMPTY_STORE
    {
      trades, rows, snapshots := [], map[], [];
    }

    /** Logs the fill and updates the position kept under the order's tag; `false` is an exception, and then nothing is
        committed. */
    method SaveFill(f: Fill, tag: string) returns (ok: bool)
      modifies this
      ensures ok <==> Stores.SaveFill(old(View()), f, tag).Some?
      ensures View() == if ok then Stores.SaveFill(old(View()), f, tag).value else old(View())
      ensures old(Valid()) && (f.side.Buy? ==> f.quantity > 0.0) ==> ok && Valid()
    {
      hide AveragedRow;
      var key := (tag, f.symbol);
      if f.side.Buy? {
        if key !in rows {
          rows := rows[key := Row(f.quantity, f.price, f.timestamp, f.timestamp)];
        } else if rows[key].quantity + f.quantity == 0.0 {
          return false;
        } else {
          var row := AveragedRow(rows[key], f);
          assert row.quantity == rows[key].quantity + f.quantity by {
            AveragedRowQuantity(rows[key], f);
          }
          rows := rows[key := row];
        }
      } else if key in rows {
        var rest := rows[key].quantity - f.quantity;
        if rest <= EPSILON {
          rows := rows - {key};
        } else {
          rows := rows[key := rows[key].(quantity := rest, updatedAt := f.timestamp)];
        }
      }
      trades := trades + [Trade(f, tag)];
      return true;
    }

    method SaveAccountSnapshot(a: Account, name: string)
      modifies this`snapshots
      ensures View() == Stores.SaveAccountSnapshot(old(View()), a, name)
    {
      snapshots := snapshots + [Snapshot(name, a)];
    }

    /** Any of the latest snapshots of that name may answer; `None` without one. */
    method LatestCashBalance(name: string, ghost initial: real) returns (cash: Option<real>)
      ensures MayResumeWith(snapshots, name, initial, if cash.Some? then cash.value else initial)
      ensures cash.None? ==> forall s | s in snapshots :: s.strategyName != name
    {
      var best: Option<Snapshot> := None;
      for i := 0 to |snapshots|
        invariant best.None? ==> forall s | s in snapshots[..i] :: s.strategyName != name
        invariant best.Some? ==> IsLatest(snapshots[..i], name, best.value)
      {
        assert snapshots[..i + 1] == snapshots[..i] + [snapshots[i]];
        var s := snapshots[i];
        if s.strategyName == name && (best.None? || best.value.account.timestamp <= s.account.timestamp) {
          best := Some(s);
        }
      }
      assert snapshots[..|snapshots|] == snapshots;
      if best.Some? {
        return Some(best.value.account.cash);
      }
      return None;
    }

    /** New position objects for the rows of a name, in an order the query does not promise. */
    method ListOpenPositions(name: string) returns (list: seq<Position>, ghost b: Book)
      ensures b.Valid() && b.held == OpenPositions(rows, name)
      ensures Lists(list, b) && forall p | p in list :: fresh(p)
    {
      list, b := [], EMPTY_BOOK;
      var keys := set key | key in rows && key.0 == name;
      ghost var seen: set<Key> := {};
      while keys != {}
        invariant seen + keys == (set key | key in rows && key.0 == name) && seen !! keys
        invariant b.Valid() && Lists(list, b) && forall p | p in list :: fresh(p)
        invariant forall s :: s in b.held <==> (name, s) in seen
        invariant forall s | s in b.held :: b.held[s] == HoldingOf(rows[(name, s)])
        decreases keys
      {
        var key :| key in keys;
        var row := rows[key];
        var p := new Position(key.1, row.quantity, row.avgEntryPrice, row.openedAt);
        assert key == (name, key.1) && key.1 !in b.order;
        ListsOpened(list, b, p);
        list, b := list + [p], Opened(b, key.1, HoldingOf(row));
        keys, seen := keys - {key}, seen + {key};
      }
      assert b.held == OpenPositions(rows, name);
    }

    /** The trades that pass the filters, by time; the query promises no order among equal times. */
    method ListTrades(symbol: Option<Symbol>, since: Option<int>, name: Option<string>) returns (fills: seq<Fill>)
      ensures Chronological(fills) && multiset(fills) == multiset(Selected(trades, symbol, since, name))
      ensures forall f :: f in fills <==>
                && (exists t :: t in trades && t.fill == f && (name.Some? ==> t.strategyName == name.value))
                && (symbol.Some? ==> f.symbol == symbol.value) && (since.Some? ==> f.timestamp >= since.value)
    {
      hide Passes, SortByTime, Chronological;
      var selected: seq<Fill> := [];
      for i := 0 to |trades|
        invariant selected == Selected(trades[..i], symbol, since, name)
      {
        assert trades[..i + 1][..i] == trades[..i];
        if Passes(trades[i], symbol, since, name) {
          selected := selected + [trades[i].fill];
        }
      }
      assert trades[..|trades|] == trades;
      ListedTrades(trades, symbol, since, name);
      return SortByTime(selected);
    }
  }

  lemma ListsOpened(list: seq<Position>, b: Book, p: Position)
    requires b.Valid() && Lists(list, b) && p.symbol !in b.held
    ensures Opened(b, p.symbol, p.AsHolding()).Valid()
    ensures Lists(list + [p], Opened(b, p.symbol, p.AsHolding()))
  {
  }

  lemma AveragedRowQuantity(r: Row, f: Fill)
    requires r.quantity + f.quantity != 0.0
    ensures AveragedRow(r, f).quantity == r.quantity + f.quantity
  {
  }

  predicate Passes(t: Trade, symbol: Option<Symbol>, since: Option<int>, name: Option<string>) {
    && (symbol.Some? ==> t.fill.symbol == symbol.value)
    && (since.Some? ==> t.fill.timestamp >= since.value)
    && (name.Some? ==> t.strategyName == name.value)
  }

  function Selected(trades: seq<Trade>, symbol: Option<Symbol>, since: Option<int>, name: Option<string>): seq<Fill> {
    if trades == [] then []
    else
      var last := trades[|trades| - 1];
      Selected(trades[..|trades| - 1], symbol, since, name)
      + (if Passes(last, symbol, since, name) then [last.fill] else [])
  }

  lemma {:induction false} SelectedTrades(trades: seq<Trade>, symbol: Option<Symbol>, since: Option<int>,
                                          name: Option<string>)
    ensures forall f :: f in Selected(trades, symbol, since, name)
                   <==> exists t :: t in trades && t.fill == f && Passes(t, symbol, since, name)
  {
    hide Passes;
    if trades != [] {
      var init, last := trades[..|trades| - 1], trades[|trades| - 1];
      SelectedTrades(init, symbol, since, name);
      assert trades == init + [last];
    }
  }

  lemma ListedTrades(trades: seq<Trade>, symbol: Option<Symbol>, since: Option<int>, name: Option<string>)
    ensures var selected := Selected(trades, symbol, since, name);
      Chronological(SortByTime(selected)) && multiset(SortByTime(selected)) == multiset(selected)
    ensures forall f :: f in SortByTime(Selected(trades, symbol, since, name)) <==>
              && (exists t :: t in trades && t.fill == f && (name.Some? ==> t.strategyName == name.value))
              && (symbol.Some? ==> f.symbol == symbol.value) && (since.Some? ==> f.timestamp >= since.value)
  {
    hide Selected, SortByTime, Chronological;
    var selected := Selected(trades, symbol, since, name);
    SortIsStable(selected, 0);
    forall f ensures f in SortByTime(selected) <==> f in selected {
      assert f in multiset(SortByTime(selected)) <==> f in multiset(selected);
    }
    SelectedTrades(trades, symbol, since, name);
  }
}
