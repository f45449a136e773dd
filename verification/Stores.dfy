/** The database as a value: the trade log, the position rows keyed by (strategy name, symbol), and the account
    snapshots. `Repositories.SqlTradeRepository` keeps the same tables on the heap. */
module Stores {
  import opened Domain
  import opened Ledgers
  import opened Trading

  datatype Row = Row(quantity: real, avgEntryPrice: real, openedAt: int, updatedAt: int)

  datatype Trade = Trade(fill: Fill, strategyName: string)

  datatype Snapshot = Snapshot(strategyName: string, account: Account)

  type Key = (string, Symbol)

  datatype Store = Store(trades: seq<Trade>, rows: map<Key, Row>, snapshots: seq<Snapshot>)

  const EMPTY_STORE := Store([], map[], [])

  function AveragedRow(r: Row, f: Fill): Row
    requires r.quantity + f.quantity != 0.0
  {
    var total := r.quantity + f.quantity;
    Row(total, (r.quantity * r.avgEntryPrice + f.quantity * f.price) / total, r.openedAt, f.timestamp)
  }

  /** `None` is the division by zero of averaging to nothing; the transaction is then not committed. A sell without
      a row changes no row. */
  function UpsertPosition(rows: map<Key, Row>, f: Fill, tag: string): Option<map<Key, Row>> {
    var key := (tag, f.symbol);
    if f.side.Buy? then
      if key !in rows then Some(rows[key := Row(f.quantity, f.price, f.timestamp, f.timestamp)])
      else if rows[key].quantity + f.quantity == 0.0 then None
      else Some(rows[key := AveragedRow(rows[key], f)])
    else if key !in rows then Some(rows)
    else
      var rest := rows[key].quantity - f.quantity;
      if rest <= EPSILON then Some(rows - {key})
      else Some(rows[key := rows[key].(quantity := rest, updatedAt := f.timestamp)])
  }

  function SaveFill(st: Store, f: Fill, tag: string): Option<Store> {
    match UpsertPosition(st.rows, f, tag)
    case None => None
    case Some(rows) => Some(st.(trades := st.trades + [Trade(f, tag)], rows := rows))
  }

  function SaveAccountSnapshot(st: Store, a: Account, name: string): Store {
    st.(snapshots := st.snapshots + [Snapshot(name, a)])
  }

  /** The effect of one completed trade of the engine called `name`. */
  function SaveEntry(st: Store, name: string, e: Entry): Store {
    var saved := match SaveFill(st, e.fill, e.tag) case Some(st') => st' case None => st;
    if e.snapshot.Some? then SaveAccountSnapshot(saved, e.snapshot.value, name) else saved
  }

  function Persist(st: Store, name: string, log: seq<Entry>): Store {
    if log == [] then st else SaveEntry(Persist(st, name, log[..|log| - 1]), name, log[|log| - 1])
  }

  /** What `latest_cash_balance` may answer: the cash of a snapshot no other one of that name is later than; among
      equal timestamps the query does not say which. Without a snapshot the account starts with `initial`. */
  ghost predicate MayResumeWith(snapshots: seq<Snapshot>, name: string, initial: real, cash: real) {
    if forall s | s in snapshots :: s.strategyName != name then cash == initial
    else exists s :: IsLatest(snapshots, name, s) && s.account.cash == cash
  }

  ghost predicate IsLatest(snapshots: seq<Snapshot>, name: string, s: Snapshot) {
    && s in snapshots && s.strategyName == name
    && forall t | t in snapshots && t.strategyName == name :: t.account.timestamp <= s.account.timestamp
  }

  function HoldingOf(r: Row): Holding {
    Holding(r.quantity, r.avgEntryPrice, r.openedAt)
  }

  /** The positions stored under one strategy's name. */
  function OpenPositions(rows: map<Key, Row>, name: string): map<Symbol, Holding> {
    map key | key in rows && key.0 == name :: key.1 := HoldingOf(rows[key])
  }

  /** The ledgers `build_trading_context` may build; rows come back in no particular order. */
  ghost predicate RebuiltFrom(st: Store, name: string, initial: real, l: Ledger) {
    && MayResumeWith(st.snapshots, name, initial, l.cash)
    && !l.unlimited && l.realizedPl == 0.0
    && l.book.Valid() && l.book.held == OpenPositions(st.rows, name)
  }

  lemma PersistSnoc(st: Store, name: string, log: seq<Entry>, e: Entry)
    ensures Persist(st, name, log + [e]) == SaveEntry(Persist(st, name, log), name, e)
  {
    assert (log + [e])[..|log|] == log;
  }

  lemma {:induction false} PersistAppend(st: Store, name: string, a: seq<Entry>, b: seq<Entry>)
    ensures Persist(st, name, a + b) == Persist(Persist(st, name, a), name, b)
  {
    if b == [] {
      assert a + b == a;
    } else {
      PersistAppend(st, name, a, b[..|b| - 1]);
      assert (a + b)[..|a + b| - 1] == a + b[..|b| - 1];
    }
  }
}
