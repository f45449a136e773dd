/** The market data provider and the paper broker as objects. */
module Brokers {
  import opened Backtests
  import opened Domain
  import opened Ledgers
  import opened Portfolios
  import opened Trading

  /** Where prices come from: a replayed history, or an outside vendor. */
  datatype Source = Replay(history: History, clock: nat -> int, ids: nat -> int)
                  | Vendor(market: Market, bars: (nat, Symbol) -> Option<Window>)

  /** The provider interface of the source with both of its implementations behind it. `moment` counts the batches of
      questions asked so far; it is where the outside world may change its mind. */
  class MarketData {
    const source: Source
    var currentDate: Option<int>
    var moment: nat

    constructor (source: Source)
      ensures this.source == source && currentDate == None && moment == 0
    {
      this.source, currentDate, moment := source, None, 0;
    }

    /** The market the provider shows from now on. */
    function Market(): Market
      reads this`currentDate
    {
      match source
      case Vendor(m, _) => m
      case Replay(h, clock, ids) => Trading.Market(Constantly(Visible(h, currentDate)), clock, ids)
    }

    /** The histories the provider shows from now on, by batch and symbol; `None` raises. */
    function Bars(): (nat, Symbol) -> Option<Window>
      reads this`currentDate
    {
      match source
      case Vendor(_, bars) => bars
      case Replay(h, _, _) => ReplayBars(h, currentDate)
    }

    method AdvanceTo(date: int)
      modifies this`currentDate
      ensures currentDate == Some(date)
    {
      currentDate := Some(date);
    }

    /** One batch of questions is over. */
    method NextMoment()
      modifies this`moment
      ensures moment == old(moment) + 1
    {
      moment := moment + 1;
    }

    /** The history of a symbol, or `None` where the provider raises; a replay shows its bars up to the last one not
        later than its date, and all of them before it is given a date. */
    method GetHistory(s: Symbol) returns (bars: Option<Window>)
      ensures bars == Bars()(moment, s)
      ensures source.Replay? ==>
                var all := BarsOf(source.history, s);
                && (currentDate.None? ==> bars == Some(all))
                && (currentDate.Some? ==>
                      && (forall i | LastBar(all, currentDate.value, i) :: bars == Some(all[..i + 1]))
                      && ((forall i | 0 <= i < |all| :: all[i].date > currentDate.value) ==> bars == Some([])))
    {
      if source.Replay? && currentDate.Some? {
        ghost var n := UpToIsPrefix(BarsOf(source.history, s), currentDate.value);
      }
      match source {
        case Vendor(_, vendorBars) =>
          return vendorBars(moment, s);
        case Replay(h, _, _) =>
          return Some(if currentDate.Some? then UpTo(BarsOf(h, s), currentDate.value) else BarsOf(h, s));
      }
    }

    /** The latest price, or `None` where the provider raises; for a replay the close of the last bar not later than
        its date, an exception where all bars are later, and the last close of all before it is given a date. */
    method GetLatestPrice(s: Symbol) returns (price: Option<real>)
      ensures price == if s in Market().prices(moment) then Some(Market().prices(moment)[s]) else None
      ensures source.Replay? ==>
                var bars := BarsOf(source.history, s);
                && (currentDate.None? ==> price == if bars == [] then None else Some(bars[|bars| - 1].close))
                && (currentDate.Some? ==>
                      && (forall i | LastBar(bars, currentDate.value, i) :: price == Some(bars[i].close))
                      && ((forall i | 0 <= i < |bars| :: bars[i].date > currentDate.value) ==> price == None))
    {
      if source.Replay? && currentDate.Some? {
        ghost var n := UpToIsPrefix(BarsOf(source.history, s), currentDate.value);
      }
      match source {
        case Vendor(m, _) =>
          return if s in m.prices(moment) then Some(m.prices(moment)[s]) else None;
        case Replay(h, _, _) =>
          var bars := BarsOf(h, s);
          var window := if currentDate.Some? then UpTo(bars, currentDate.value) else bars;
          return if window == [] then None else Some(window[|window| - 1].close);
      }
    }
  }

  /** The bars a replay shows: all of them before it is given a date, then those up to the date. */
  function ReplayBars(h: History, date: Option<int>): (nat, Symbol) -> Option<Window> {
    (k: nat, s: Symbol) => Some(if date.Some? then UpTo(BarsOf(h, s), date.value) else BarsOf(h, s))
  }

  /** What a replay can quote: everything before it is given a date, then the last close up to the date. */
  function Visible(h: History, date: Option<int>): map<Symbol, real> {
    match date
    case Some(d) => AsOf(h, d)
    case None => map s | s in h && h[s] != [] :: h[s][|h[s]| - 1].close
  }

  datatype OrderStatus = Pending | Completed | Refusal

  /** An order on its way: the broker updates its status in place. */
  class Ticket {
    const order: Order
    var status: OrderStatus

    constructor (order: Order)
      ensures this.order == order && status == Pending
    {
      this.order, status := order, Pending;
    }
  }

  class PaperBroker {
    const portfolio: Portfolio
    const provider: MarketData
    const commission: real

    constructor (portfolio: Portfolio, provider: MarketData, commission: real)
      ensures this.portfolio == portfolio && this.provider == provider && this.commission == commission
    {
      this.portfolio, this.provider, this.commission := portfolio, provider, commission;
    }

    /** The position objects themselves, in order. */
    method GetPositions() returns (list: seq<Position>)
      requires portfolio.Valid()
      ensures Lists(list, portfolio.View().book)
      ensures forall p | p in list :: p in portfolio.positions.Values
    {
      list := [];
      for i := 0 to |portfolio.order|
        invariant |list| == i
        invariant forall j | 0 <= j < i ::
          portfolio.order[j] in portfolio.positions && list[j] == portfolio.positions[portfolio.order[j]]
      {
        assert portfolio.order[i] in portfolio.positions;
        list := list + [portfolio.positions[portfolio.order[i]]];
      }
    }

    /** The latest price of each held symbol, or `None` where the provider raises for one of them. */
    method PricesOfHeld() returns (prices: Option<map<Symbol, real>>)
      requires portfolio.Valid()
      ensures prices.Some? <==> forall s | s in portfolio.order :: s in provider.Market().prices(provider.moment)
      ensures prices.Some? ==> forall s | s in portfolio.order :: s in prices.value
      ensures prices.Some? ==> forall s | s in prices.value ::
                s in provider.Market().prices(provider.moment)
                && prices.value[s] == provider.Market().prices(provider.moment)[s]
    {
      var quotes: map<Symbol, real> := map[];
      for i := 0 to |portfolio.order|
        invariant forall s | s in portfolio.order[..i] :: s in quotes
        invariant forall s | s in quotes ::
          s in provider.Market().prices(provider.moment) && quotes[s] == provider.Market().prices(provider.moment)[s]
      {
        var price := provider.GetLatestPrice(portfolio.order[i]);
        if price.None? {
          return None;
        }
        quotes := quotes[portfolio.order[i] := price.value];
      }
      assert portfolio.order[..|portfolio.order|] == portfolio.order;
      return Some(quotes);
    }

    /** Marks every position to market in one batch; `None` is a provider that raised for one of them. */
    method GetAccount() returns (account: Option<Account>)
      requires portfolio.Valid()
      modifies provider`moment
      ensures account == Trading.GetAccount(portfolio.View(), provider.Market(), old(provider.moment))
      ensures provider.moment == old(provider.moment) + 1
    {
      ghost var l, m, k := portfolio.View(), provider.Market(), provider.moment;
      assert l.book.Valid() && m.clock(k) == Clock(provider.source, k);
      hide Held, Trading.GetAccount, Ledgers.PositionsValue, MarketData.Market, Clock;
      var prices := PricesOfHeld();
      AccountAtSome(l, m, k, prices);
      account := None;
      if prices.Some? {
        var value := portfolio.PositionsValue(prices.value);
        account := Some(Account(Clock(provider.source, provider.moment), portfolio.cash, value));
      }
      assert account == Trading.GetAccount(l, m, k);
      provider.NextMoment();
    }

    /** Fills at the current price or raises (`None`); the ticket ends FILLED, or REJECTED for missing funds or
        shares, and stays PENDING where the provider or the averaging raised. */
    method SubmitOrder(t: Ticket) returns (fill: Option<Fill>)
      requires portfolio.Valid() && t.status == Pending
      modifies portfolio, portfolio.positions.Values, provider`moment, t
      ensures portfolio.Valid()
      ensures forall p | p in portfolio.positions.Values :: p in old(portfolio.positions.Values) || fresh(p)
      ensures provider.moment == old(provider.moment) + 1
      ensures t.order.symbol !in provider.Market().prices(old(provider.moment)) ==>
                fill == None && portfolio.View() == old(portfolio.View()) && t.status == Pending
      ensures t.order.symbol in provider.Market().prices(old(provider.moment)) ==>
                var m, k := provider.Market(), old(provider.moment);
                var f := Fill(m.ids(k), t.order.symbol, t.order.side, t.order.quantity, m.prices(k)[t.order.symbol],
                              commission, m.clock(k));
                var r := ApplyFill(old(portfolio.View()), f);
                && portfolio.View() == r.ledger
                && (r.Filled? ==> fill == Some(f) && t.status == Completed)
                && (r.Refused? ==> fill == None && t.status == if r.error.DivisionByZero? then Pending else Refusal)
    {
      var price := provider.GetLatestPrice(t.order.symbol);
      var k := provider.moment;
      provider.NextMoment();
      if price.None? {
        return None;
      }
      var f := Fill(FreshId(provider.source, k), t.order.symbol, t.order.side, t.order.quantity, price.value,
                    commission, Clock(provider.source, k));
      assert f.id == provider.Market().ids(k) && f.timestamp == provider.Market().clock(k);
      hide Ledgers.ApplyFill;
      var applied := portfolio.ApplyFill(f);
      match applied {
        case Returned(_) =>
          t.status := Completed;
          return Some(f);
        case Raised(error) =>
          if error != DivisionByZero {
            t.status := Refusal;
          }
          return None;
      }
    }
  }

  function Clock(source: Source, k: nat): int {
    match source
    case Vendor(m, _) => m.clock(k)
    case Replay(_, clock, _) => clock(k)
  }

  function FreshId(source: Source, k: nat): int {
    match source
    case Vendor(m, _) => m.ids(k)
    case Replay(_, _, ids) => ids(k)
  }

  lemma SameWorth(b: Book, prices: map<Symbol, real>, all: map<Symbol, real>)
    requires b.Valid() && b.held.Keys <= all.Keys
    requires forall s | s in prices :: s in all && prices[s] == all[s]
    requires forall s | s in b.order :: s in prices
    ensures Ledgers.PositionsValue(b, prices) == Ledgers.PositionsValue(b, all)
  {
    assert Worth(b, prices) == Worth(b, all);
  }

  /** To mark an account it takes the quotes of the held symbols and no others. */
  lemma AccountAtSome(l: Ledger, m: Market, k: nat, prices: Option<map<Symbol, real>>)
    requires l.book.Valid()
    requires prices.Some? <==> forall s | s in l.book.order :: s in m.prices(k)
    requires prices.Some? ==> forall s | s in l.book.order :: s in prices.value
    requires prices.Some? ==> forall s | s in prices.value :: s in m.prices(k) && prices.value[s] == m.prices(k)[s]
    ensures Trading.GetAccount(l, m, k)
         == if prices.Some? then Some(Account(m.clock(k), l.cash, Ledgers.PositionsValue(l.book, prices.value)))
            else None
  {
    hide Ledgers.PositionsValue;
    if prices.Some? {
      SameWorth(l.book, prices.value, m.prices(k));
    }
  }
}
