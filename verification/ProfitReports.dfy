/** The report's reconstruction of profit and loss as the source runs it: a loop over the sorted fills through a scratch
    portfolio object. */
module ProfitReports {
  import opened Domain
  import opened Ledgers
  import opened Portfolios
  import opened Profits

  method ComputeRealizedPnlByFill(trades: seq<Fill>) returns (r: PnlResult)
    ensures r == RealizedPnlByFill(trades)
  {
    hide ApplyFill;
    var fills := SortByTime(trades);
    var ledger := new Portfolio(0.0, true);
    r := Pnl([], map[]);
    for i := 0 to |fills|
      invariant ledger.Valid() && ledger.View() == Replay(SCRATCH, fills[..i])
      invariant forall p | p in ledger.positions.Values :: fresh(p)
      invariant r.Pnl? && r == ReplayPnl(SCRATCH, fills[..i])
    {
      assert fills[..i + 1][..i] == fills[..i];
      var applied := ledger.ApplyFill(fills[i]);
      match applied {
        case Raised(error) =>
          r := Failed(error);
          FailureSticks(SCRATCH, fills, i + 1);
          return;
        case Returned(pnl) =>
          if fills[i].side.Sell? {
            r := Recorded(r, fills[i].id, pnl);
          }
      }
    }
    assert fills[..|fills|] == fills;
  }

  lemma {:induction false} FailureSticks(scratch: Ledger, fills: seq<Fill>, n: nat)
    requires n <= |fills| && ReplayPnl(scratch, fills[..n]).Failed?
    ensures ReplayPnl(scratch, fills) == ReplayPnl(scratch, fills[..n])
    decreases |fills| - n
  {
    if n < |fills| {
      assert fills[..n + 1][..n] == fills[..n];
      FailureSticks(scratch, fills, n + 1);
    } else {
      assert fills[..n] == fills;
    }
  }
}
