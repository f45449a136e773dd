/** The latest-price cache with a time to live, and what it promises over any sequence of requests. */
module PriceCache {
  import opened Arithmetic
  import opened Domain

  /** A request for a symbol at a clock reading; `vendor` is what the wrapped provider would answer, `None` raising. */
  datatype Request = Request(symbol: Symbol, now: real, vendor: Option<real>)

  /** The answer, and whether it was fetched and stored by this request. */
  datatype Reply = Reply(price: Option<real>, fetched: bool)

  datatype Quote = Quote(price: real, fetchedAt: real)

  type Cache = map<Symbol, Quote>

  predicate IsFresh(ttl: real, cache: Cache, r: Request) {
    r.symbol in cache && r.now - cache[r.symbol].fetchedAt < ttl
  }

  function Look(ttl: real, cache: Cache, r: Request): Reply {
    if IsFresh(ttl, cache, r) then Reply(Some(cache[r.symbol].price), false)
    else Reply(r.vendor, r.vendor.Some?)
  }

  function Updated(ttl: real, cache: Cache, r: Request): Cache {
    if Look(ttl, cache, r).fetched then cache[r.symbol := Quote(r.vendor.value, r.now)] else cache
  }

  class CachedPrices {
    const ttl: real
    var cache: Cache

    constructor (ttl: real)
      ensures this.ttl == ttl && cache == map[]
    {
      this.ttl := ttl;
      cache := map[];
    }

    /** A provider that raises leaves the cache as it was. */
    method GetLatestPrice(symbol: Symbol, now: real, vendor: Option<real>) returns (price: Option<real>)
      modifies this
      ensures price == Look(ttl, old(cache), Request(symbol, now, vendor)).price
      ensures cache == Updated(ttl, old(cache), Request(symbol, now, vendor))
    {
      if symbol in cache && now - cache[symbol].fetchedAt < ttl {
        return Some(cache[symbol].price);
      }
      price := vendor;
      if price.Some? {
        cache := cache[symbol := Quote(price.value, now)];
      }
    }

    /** A whole sequence of requests to a new cache. */
    method Serve(rs: seq<Request>) returns (prices: seq<Option<real>>)
      requires cache == map[]
      modifies this
      ensures cache == After(ttl, rs)
      ensures |prices| == |rs| && forall i | 0 <= i < |rs| :: prices[i] == Replies(ttl, rs)[i].price
    {
      prices := [];
      for n := 0 to |rs|
        invariant cache == After(ttl, rs[..n])
        invariant |prices| == n && forall i | 0 <= i < n :: prices[i] == Replies(ttl, rs[..n])[i].price
      {
        var price := GetLatestPrice(rs[n].symbol, rs[n].now, rs[n].vendor);
        assert rs[..n + 1][..n] == rs[..n] && rs[n] == Request(rs[n].symbol, rs[n].now, rs[n].vendor);
        prices := prices + [price];
      }
      assert rs[..|rs|] == rs;
    }
  }

  function After(ttl: real, rs: seq<Request>): Cache {
    if rs == [] then map[] else Updated(ttl, After(ttl, rs[..|rs| - 1]), rs[|rs| - 1])
  }

  function Replies(ttl: real, rs: seq<Request>): (replies: seq<Reply>)
    ensures |replies| == |rs|
  {
    if rs == [] then []
    else Replies(ttl, rs[..|rs| - 1]) + [Look(ttl, After(ttl, rs[..|rs| - 1]), rs[|rs| - 1])]
  }

  ghost predicate Monotone(rs: seq<Request>) {
    forall i, j | 0 <= i < j < |rs| :: rs[i].now <= rs[j].now
  }

  ghost predicate FetchedAt(ttl: real, rs: seq<Request>, s: Symbol, j: int) {
    0 <= j < |rs| && rs[j].symbol == s && Replies(ttl, rs)[j].fetched
  }

  ghost predicate LastFetch(ttl: real, rs: seq<Request>, s: Symbol, j: int) {
    FetchedAt(ttl, rs, s, j) && forall k | j < k < |rs| :: !FetchedAt(ttl, rs, s, k)
  }

  lemma {:induction false} RepliesOfPrefix(ttl: real, rs: seq<Request>, n: nat)
    requires n <= |rs|
    ensures Replies(ttl, rs[..n]) == Replies(ttl, rs)[..n]
    decreases |rs| - n
  {
    if n < |rs| {
      RepliesOfPrefix(ttl, rs, n + 1);
      assert rs[..n + 1][..n] == rs[..n];
      assert Replies(ttl, rs[..n]) == Replies(ttl, rs[..n + 1])[..n];
    } else {
      assert rs[..n] == rs;
    }
  }

  lemma ReplyAt(ttl: real, rs: seq<Request>, i: nat)
    requires i < |rs|
    ensures Replies(ttl, rs)[i] == Look(ttl, After(ttl, rs[..i]), rs[i])
    ensures forall s, j | 0 <= j < i :: FetchedAt(ttl, rs[..i], s, j) <==> FetchedAt(ttl, rs, s, j)
  {
    RepliesOfPrefix(ttl, rs, i);
    RepliesOfPrefix(ttl, rs, i + 1);
    assert rs[..i + 1][..i] == rs[..i];
    assert Replies(ttl, rs[..i + 1])[i] == Replies(ttl, rs)[i];
  }

  /** The cache holds the last fetch of each symbol, and nothing else. */
  lemma {:induction false} CacheIsLastFetch(ttl: real, rs: seq<Request>, s: Symbol) returns (j: int)
    ensures s in After(ttl, rs) ==>
              LastFetch(ttl, rs, s, j) && rs[j].vendor == Some(After(ttl, rs)[s].price)
              && rs[j].now == After(ttl, rs)[s].fetchedAt
    ensures s !in After(ttl, rs) ==> forall k :: !FetchedAt(ttl, rs, s, k)
  {
    j := 0;
    if rs != [] {
      var n := |rs| - 1;
      ReplyAt(ttl, rs, n);
      if rs[n].symbol == s && Replies(ttl, rs)[n].fetched {
        j := n;
      } else {
        j := CacheIsLastFetch(ttl, rs[..n], s);
        assert forall k | 0 <= k < n :: FetchedAt(ttl, rs[..n], s, k) <==> FetchedAt(ttl, rs, s, k);
        assert !FetchedAt(ttl, rs, s, n);
      }
    }
  }

  /** Every price returned was fetched for that symbol, either by this request or less than the time to live ago. */
  lemma PricesAreFresh(ttl: real, rs: seq<Request>, i: nat) returns (j: nat)
    requires i < |rs| && Replies(ttl, rs)[i].price.Some?
    ensures j <= i && FetchedAt(ttl, rs, rs[i].symbol, j) && rs[j].vendor == Replies(ttl, rs)[i].price
    ensures j == i || rs[i].now - rs[j].now < ttl
  {
    ReplyAt(ttl, rs, i);
    if Replies(ttl, rs)[i].fetched {
      j := i;
    } else {
      var k := CacheIsLastFetch(ttl, rs[..i], rs[i].symbol);
      j := k;
    }
  }

  lemma LastFetchIsOne(ttl: real, rs: seq<Request>, s: Symbol, j: int, k: int)
    requires LastFetch(ttl, rs, s, j) && LastFetch(ttl, rs, s, k)
    ensures j == k
  {
  }

  /** Each answer, told by the answers before it: where the symbol was last fetched less than the time to live ago, the
      price of that fetch, without asking, even if the vendor would raise now; anywhere else what the vendor says now,
      which is stored if it is a price. */
  lemma RepliesAreExact(ttl: real, rs: seq<Request>, i: nat)
    requires i < |rs|
    ensures forall j | LastFetch(ttl, rs[..i], rs[i].symbol, j) && rs[i].now - rs[j].now < ttl ::
              Replies(ttl, rs)[i] == Reply(rs[j].vendor, false)
    ensures (forall j | LastFetch(ttl, rs[..i], rs[i].symbol, j) :: rs[i].now - rs[j].now >= ttl) ==>
              Replies(ttl, rs)[i] == Reply(rs[i].vendor, rs[i].vendor.Some?)
  {
    ReplyAt(ttl, rs, i);
    var s, cache := rs[i].symbol, After(ttl, rs[..i]);
    var k := CacheIsLastFetch(ttl, rs[..i], s);
    forall j | LastFetch(ttl, rs[..i], s, j) ensures s in cache && j == k {
      assert FetchedAt(ttl, rs[..i], s, j);
      LastFetchIsOne(ttl, rs[..i], s, j, k);
    }
    hide LastFetch, FetchedAt, Replies;
  }

  /** Two fetches of one symbol are at least the time to live apart. */
  lemma FetchesAreApart(ttl: real, rs: seq<Request>, s: Symbol, i: nat, j: nat)
    requires Monotone(rs) && i < j < |rs| && FetchedAt(ttl, rs, s, i) && FetchedAt(ttl, rs, s, j)
    ensures rs[j].now - rs[i].now >= ttl
  {
    ReplyAt(ttl, rs, j);
    var k := CacheIsLastFetch(ttl, rs[..j], s);
    assert FetchedAt(ttl, rs[..j], s, i);
    assert i <= k < j;
  }

  /** The times at which a symbol was fetched. */
  function FetchTimes(ttl: real, rs: seq<Request>, s: Symbol): seq<real> {
    if rs == [] then []
    else
      var last, n := rs[|rs| - 1], |rs| - 1;
      FetchTimes(ttl, rs[..n], s)
      + (if last.symbol == s && Look(ttl, After(ttl, rs[..n]), last).fetched then [last.now] else [])
  }

  lemma {:induction false} FetchTimesAreFetches(ttl: real, rs: seq<Request>, s: Symbol)
    requires Monotone(rs)
    ensures var times := FetchTimes(ttl, rs, s);
      && (times != [] ==> s in After(ttl, rs) && After(ttl, rs)[s].fetchedAt == times[|times| - 1]
                          && exists k :: 0 <= k < |rs| && rs[k].now == times[|times| - 1])
      && (forall k | 0 < k < |times| :: times[k] - times[k - 1] >= ttl)
  {
    if rs != [] {
      var n := |rs| - 1;
      FetchTimesAreFetches(ttl, rs[..n], s);
      var before, times := FetchTimes(ttl, rs[..n], s), FetchTimes(ttl, rs, s);
      if times != [] && |times| == |before| {
        var k :| 0 <= k < n && rs[..n][k].now == before[|before| - 1];
        assert rs[k].now == times[|times| - 1];
      } else if times != [] {
        assert rs[n].now == times[|times| - 1];
      }
    }
  }

  lemma {:induction false} FetchesSpread(ttl: real, times: seq<real>, a: nat, b: nat)
    requires a <= b < |times| && forall k | 0 < k < |times| :: times[k] - times[k - 1] >= ttl
    ensures times[b] - times[a] >= Times(Shares(b - a), ttl)
  {
    if a < b {
      FetchesSpread(ttl, times, a, b - 1);
      TimesAddsLeft(Shares(b - 1 - a), 1.0, ttl);
    }
  }

  /** The vendor's load: the fetches of one symbol within any span T number at most floor(T / ttl) + 1. */
  lemma FetchesAreBounded(ttl: real, rs: seq<Request>, s: Symbol, a: nat, b: nat, span: real)
    requires ttl > 0.0 && Monotone(rs) && a <= b < |FetchTimes(ttl, rs, s)|
    requires FetchTimes(ttl, rs, s)[b] - FetchTimes(ttl, rs, s)[a] <= span
    ensures b - a + 1 <= (span / ttl).Floor + 1
  {
    var times := FetchTimes(ttl, rs, s);
    FetchTimesAreFetches(ttl, rs, s);
    FetchesSpread(ttl, times, a, b);
    QuotientTimes(span, ttl);
    if Shares(b - a) > span / ttl {
      ProductStrict(span / ttl, Shares(b - a), ttl);
    }
  }

  function RequestsFor(rs: seq<Request>, s: Symbol): seq<Request> {
    if rs == [] then []
    else RequestsFor(rs[..|rs| - 1], s) + (if rs[|rs| - 1].symbol == s then [rs[|rs| - 1]] else [])
  }

  function RepliesFor(ttl: real, rs: seq<Request>, s: Symbol): seq<Reply> {
    if rs == [] then []
    else
      var n := |rs| - 1;
      RepliesFor(ttl, rs[..n], s)
      + (if rs[n].symbol == s then [Look(ttl, After(ttl, rs[..n]), rs[n])] else [])
  }

  /** Symbols do not affect each other: what one symbol's requests are answered is what they would be answered alone. */
  lemma {:induction false} SymbolsAreIndependent(ttl: real, rs: seq<Request>, s: Symbol)
    ensures RepliesFor(ttl, rs, s) == Replies(ttl, RequestsFor(rs, s))
    ensures s in After(ttl, rs) <==> s in After(ttl, RequestsFor(rs, s))
    ensures s in After(ttl, rs) ==> After(ttl, rs)[s] == After(ttl, RequestsFor(rs, s))[s]
  {
    if rs != [] {
      var init, last := rs[..|rs| - 1], rs[|rs| - 1];
      SymbolsAreIndependent(ttl, init, s);
      if last.symbol == s {
        var alone := RequestsFor(rs, s);
        assert alone[..|alone| - 1] == RequestsFor(init, s) && alone[|alone| - 1] == last;
        assert Look(ttl, After(ttl, init), last) == Look(ttl, After(ttl, RequestsFor(init, s)), last);
      } else {
        assert RequestsFor(rs, s) == RequestsFor(init, s);
        assert RepliesFor(ttl, rs, s) == RepliesFor(ttl, init, s);
      }
    }
  }
}
