/** One engine call as a function: signal or exit check, risk decision, broker fill, and what gets persisted.
    `Engines.ExecutionEngine` performs the same steps on the heap and is proved against these functions. */
module Trading {
  import opened Domain
  import opened Ledgers
  import opened Risk

  /** What the outside world answers. Calls ask in batches, at most once per symbol in a batch; at batch `k` the
      provider quotes `prices(k)`, a missing key being a provider that raises, the clock shows `clock(k)`, and a
      fresh identifier is `ids(k)`. Nothing relates one batch to the next: prices may change in the middle of a call. */
  datatype Market = Market(prices: nat -> map<Symbol, real>, clock: nat -> int, ids: nat -> int)

  /** `persist` says whether a repository is attached. */
  datatype Terms = Terms(commission: real, strategyName: string, persist: bool)

  datatype Config = Config(limits: Limits, terms: Terms)

  /** The broker's ledger and the engine's start-of-day equity. */
  datatype Desk = Desk(ledger: Ledger, baseline: Option<real>)

  /** One completed trade: the fill, its order's strategy name, and the account snapshot stored after it. */
  datatype Entry = Entry(fill: Fill, tag: string, snapshot: Option<Account>)

  /** `raised` is an exception leaving the engine call; what was done before it stays done. */
  datatype Step = Step(desk: Desk, log: seq<Entry>, moment: nat, raised: bool)

  function GetAccount(l: Ledger, m: Market, k: nat): Option<Account> {
    if l.book.held.Keys <= m.prices(k).Keys then
      Some(Account(m.clock(k), l.cash, PositionsValue(l.book, m.prices(k))))
    else None
  }

  /** The fill a broker makes of an order at batch `k`. */
  function FillOf(t: Terms, m: Market, k: nat, o: Order): Fill
    requires o.symbol in m.prices(k)
  {
    Fill(m.ids(k), o.symbol, o.side, o.quantity, m.prices(k)[o.symbol], t.commission, m.clock(k))
  }

  /** A broker failure, a missing quote included, is swallowed; a failure while persisting is not. */
  function Submit(t: Terms, d: Desk, m: Market, k: nat, o: Order): Step {
    if o.symbol !in m.prices(k) then Step(d, [], k + 1, false)
    else
      var f := FillOf(t, m, k, o);
      var d' := d.(ledger := After(d.ledger, f));
      if ApplyFill(d.ledger, f).Refused? then Step(d', [], k + 1, false)
      else if !t.persist then Step(d', [Entry(f, o.strategyName, None)], k + 1, false)
      else
        var account := GetAccount(d'.ledger, m, k + 1);
        Step(d', [Entry(f, o.strategyName, account)], k + 2, account.None?)
  }

  function StartNewTradingDay(d: Desk, m: Market, k: nat): Step {
    match GetAccount(d.ledger, m, k)
    case None => Step(d, [], k + 1, true)
    case Some(a) => Step(d.(baseline := Some(a.Equity())), [], k + 1, false)
  }

  function ProcessSignal(c: Config, d: Desk, m: Market, k: nat, sig: Signal): Step {
    if sig.kind.HOLD? then Step(d, [], k, false)
    else if sig.symbol !in m.prices(k) then Step(d, [], k + 1, true)
    else
      match GetAccount(d.ledger, m, k + 1)
      case None => Step(d, [], k + 2, true)
      case Some(a) =>
        match EvaluateSignal(c.limits, sig, m.prices(k)[sig.symbol], a, d.ledger.book, d.baseline)
        case Rejected(_) => Step(d, [], k + 2, false)
        case Approved(o) => Submit(c.terms, d, m, k + 2, o)
  }

  /** Orders are submitted one after another until one of them raises. */
  function SubmitAll(t: Terms, d: Desk, m: Market, k: nat, orders: seq<Order>): Step {
    if orders == [] then Step(d, [], k, false)
    else
      var before := SubmitAll(t, d, m, k, orders[..|orders| - 1]);
      if before.raised then before
      else
        var last := Submit(t, before.desk, m, before.moment, orders[|orders| - 1]);
        last.(log := before.log + last.log)
  }

  function RunExitChecks(c: Config, d: Desk, m: Market, k: nat): Step {
    if !(d.ledger.book.held.Keys <= m.prices(k).Keys) then Step(d, [], k + 1, true)
    else
      SubmitAll(c.terms, d, m, k + 1,
                CheckExits(c.limits.stopLossPct, c.limits.takeProfitPct, d.ledger.book, m.prices(k)))
  }

  function Fills(log: seq<Entry>): seq<Fill> {
    seq(|log|, i requires 0 <= i < |log| => log[i].fill)
  }

  /** The ledger before the entry at `i`. */
  function Before(l: Ledger, log: seq<Entry>, i: nat): Ledger
    requires i <= |log|
  {
    Replay(l, Fills(log[..i]))
  }

  function End(l: Ledger, log: seq<Entry>): Ledger {
    Replay(l, Fills(log))
  }

  /** The moves the risk rules leave possible: a buy opens a position in whole shares below the position limit,
      under the strategy's own name; a sell closes a whole position, under that name or a risk tag. */
  ghost predicate LegalMove(c: Config, l: Ledger, e: Entry) {
    && e.fill.commission == c.terms.commission
    && ApplyFill(l, e.fill).Filled?
    && match e.fill.side
       case Buy =>
         && e.fill.symbol !in l.book.held && |l.book.order| < c.limits.maxOpenPositions
         && Whole(e.fill.quantity) && e.fill.quantity >= 1.0 && e.tag == c.terms.strategyName
       case Sell =>
         && e.fill.symbol in l.book.held && e.fill.quantity == l.book.held[e.fill.symbol].quantity
         && (e.tag == c.terms.strategyName || IsRiskTag(e.tag))
  }

  /** The snapshot, when there is one, shows the cash right after the fill. */
  predicate FaithfulSnapshot(l: Ledger, e: Entry) {
    e.snapshot.Some? ==> e.snapshot.value.cash == After(l, e.fill).cash
  }

  ghost predicate Disciplined(c: Config, l: Ledger, log: seq<Entry>) {
    forall i | 0 <= i < |log| ::
      LegalMove(c, Before(l, log, i), log[i]) && FaithfulSnapshot(Before(l, log, i), log[i])
  }

  /** Every fill was priced by the market in which the call ran. */
  ghost predicate PricedBy(m: Market, log: seq<Entry>) {
    forall i | 0 <= i < |log| :: QuotedBy(m, log[i].fill)
  }

  ghost predicate QuotedBy(m: Market, f: Fill) {
    exists k: nat :: f.symbol in m.prices(k) && m.prices(k)[f.symbol] == f.price
  }
}
