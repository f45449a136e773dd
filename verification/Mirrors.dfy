/** The position table against the accounting of the ledger: the rows kept under a tag are the holdings of a ledger that
    sees the fills saved under that tag and no others. */
module Mirrors {
  import opened Domain
  import opened Ledgers
  import opened StrategyReports
  import opened Stores
  import opened Trading

  ghost predicate Mirrored(rows: map<Key, Row>, tag: string, b: Book) {
    forall s :: && ((tag, s) in rows <==> s in b.held)
                && ((tag, s) in rows ==> HoldingOf(rows[(tag, s)]) == b.held[s])
  }

  lemma FillIsMirrored(l: Ledger, rows: map<Key, Row>, f: Fill, tag: string)
    requires l.book.Valid() && Mirrored(rows, tag, l.book) && ApplyFill(l, f).Filled?
    ensures UpsertPosition(rows, f, tag).Some?
    ensures Mirrored(UpsertPosition(rows, f, tag).value, tag, After(l, f).book)
  {
    hide Notional, Profit;
    var key := (tag, f.symbol);
    assert key in rows <==> f.symbol in l.book.held;
    assert key in rows ==> HoldingOf(rows[key]) == l.book.held[f.symbol];
    if f.side.Buy? && key in rows {
      assert HoldingOf(AveragedRow(rows[key], f)) == Averaged(l.book.held[f.symbol], f.quantity, f.price);
    }
    hide Averaged, AveragedRow;
  }

  lemma OtherTagsAreNot(rows: map<Key, Row>, f: Fill, written: string, tag: string, b: Book)
    requires Mirrored(rows, tag, b) && written != tag && UpsertPosition(rows, f, written).Some?
    ensures Mirrored(UpsertPosition(rows, f, written).value, tag, b)
  {
    hide AveragedRow;
  }

  lemma SavedRows(st: Store, name: string, e: Entry)
    ensures SaveEntry(st, name, e).rows
         == match UpsertPosition(st.rows, e.fill, e.tag) case Some(rows) => rows case None => st.rows
  {
    hide UpsertPosition;
  }

  lemma AcceptedLast(l: Ledger, fills: seq<Fill>, f: Fill)
    requires Accepted(l, fills + [f])
    ensures Accepted(l, fills) && ApplyFill(Replay(l, fills), f).Filled?
    ensures Replay(l, fills + [f]) == After(Replay(l, fills), f)
  {
    hide ApplyFill, Accepted;
    AcceptedInit(l, fills + [f]);
    assert (fills + [f])[..|fills + [f]| - 1] == fills;
  }

  lemma EntryIsMirrored(st: Store, name: string, l: Ledger, e: Entry, tag: string)
    requires l.book.Valid() && Mirrored(st.rows, tag, l.book) && (e.tag == tag ==> ApplyFill(l, e.fill).Filled?)
    ensures Mirrored(SaveEntry(st, name, e).rows, tag, if e.tag == tag then After(l, e.fill).book else l.book)
  {
    hide UpsertPosition, ApplyFill, Mirrored, SaveEntry;
    SavedRows(st, name, e);
    if e.tag == tag {
      FillIsMirrored(l, st.rows, e.fill, tag);
    } else if UpsertPosition(st.rows, e.fill, e.tag).Some? {
      OtherTagsAreNot(st.rows, e.fill, e.tag, tag, l.book);
    }
  }

  /** Two books of account agree: whatever the log, its tags and its snapshots, the rows under a tag, quantity, average
      price and opening time, are what the ledger makes of that tag's own fills, as long as it would accept them. */
  lemma {:induction false} RowsMirrorLedger(st: Store, name: string, l: Ledger, log: seq<Entry>, tag: string)
    requires l.book.Valid() && Mirrored(st.rows, tag, l.book) && Accepted(l, OwnFills(log, tag))
    ensures Mirrored(Persist(st, name, log).rows, tag, Replay(l, OwnFills(log, tag)).book)
  {
    hide Mirrored, SaveEntry, Accepted, ApplyFill, After;
    if log == [] {
      assert Replay(l, []) == l;
    } else {
      var init, e := log[..|log| - 1], log[|log| - 1];
      var own := OwnFills(init, tag);
      if e.tag == tag {
        AcceptedLast(l, own, e.fill);
      } else {
        assert OwnFills(log, tag) == own;
      }
      RowsMirrorLedger(st, name, l, init, tag);
      ReplayKeepsBook(l, own);
      EntryIsMirrored(Persist(st, name, init), name, Replay(l, own), e, tag);
    }
  }
}
