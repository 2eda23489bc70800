/** The quote cache in front of the quote provider: two module-level dicts,
    `stock_cache` (symbol -> formatted quote) and `last_request_time`
    (symbol -> time of the last write), a 60-second freshness window, the
    broadcast wrapper and the symbol-selection step of the background
    refresher. The clock is the `now` parameter, the millisecond stamp
    written into a quote is `stampMs`, and the provider call is the
    `fetch` outcome it would end in. */
module FinnhubService {
  import opened Common

  /** The formatted quote dict: 's', 'p', 'v', 'o', 'h', 'l', 'pc' hold the
      `str()` rendering of the provider's values, 't' a millisecond stamp. */
  datatype Quote = Quote(s: string, p: string, v: string, o: string,
                         h: string, l: string, pc: string, t: int)

  /** What the provider call ends in: an HTTP response whose JSON body maps
      each key to the `str()` rendering of its value, or an exception raised
      by the request itself (timeout, connection error, undecodable body). */
  datatype FetchOutcome = Response(status: int, body: map<string, string>) | Raised

  /** The broadcast frame `{"type": "stock_update", "data": [quote]}`. */
  datatype BroadcastFrame = StockUpdate(data: seq<Quote>)

  const CryptoPrefix: string := "BINANCE:"
  const FreshWindow: real := 60.0

  /** Keys read without a default when a quote is formatted. */
  const FormatKeys: set<string> := {"c", "o", "h", "l", "pc"}

  /** Crypto symbols are served by a streaming path, never by this cache. */
  predicate IsCrypto(symbol: string)
  {
    CryptoPrefix <= symbol
  }

  /** The quote a successful call produces, or None when the call fails:
      a status other than 200, a body without 'c', or a body without one of
      'o', 'h', 'l', 'pc' (that KeyError is raised inside the same `try` and
      takes the same failure path). A missing 'v' renders as "0". */
  function Formatted(symbol: string, fetch: FetchOutcome, stampMs: int): (r: Option<Quote>)
    ensures r.Some? <==> fetch.Response? && fetch.status == 200 && FormatKeys <= fetch.body.Keys
    ensures r.Some? ==> r.value.s == symbol && r.value.p == fetch.body["c"] && r.value.t == stampMs
    ensures r.Some? ==> r.value.v == (if "v" in fetch.body then fetch.body["v"] else "0")
  {
    match fetch
    case Raised => None
    case Response(status, body) =>
      if status != 200 || "c" !in body then None
      else if "o" !in body || "h" !in body || "l" !in body || "pc" !in body then None
      else Some(Quote(symbol, body["c"], GetOr(body, "v", "0"), body["o"],
                      body["h"], body["l"], body["pc"], stampMs))
  }

  /** The placeholder quote fabricated when the call fails and nothing is
      cached (price 150.00). The source marks it as a temporary measure; it
      is cached like a real quote. */
  function MockQuote(symbol: string, stampMs: int): (q: Quote)
    ensures q.s == symbol && q.p == "150.00" && q.t == stampMs
  {
    Quote(symbol, "150.00", "1000000", "149.00", "152.00", "148.00", "149.50", stampMs)
  }

  /** The test of lines 44-47 on given dicts: cached and written less than
      60 seconds ago. */
  predicate FreshIn(cache: map<string, Quote>, times: map<string, real>, symbol: string, now: real)
  {
    symbol in cache && now - GetOr(times, symbol, 0.0) < FreshWindow
  }

  /** What one `get_stock_quote` call does, from the dicts and key order
      before it (`c0`, `t0`, `o0`) to those after it (`c1`, `t1`, `o1`) and
      its result `r`: crypto symbols give None and change nothing; a fresh
      entry is returned with no call and nothing changes; a successful call
      is written into both dicts and returned; a failed call returns the old
      entry and changes nothing, or, with nothing cached, writes the mock
      quote and returns it. Whatever is returned is what the cache then
      holds, and a symbol joins the key order only when it was not cached. */
  ghost predicate QuoteServed(c0: map<string, Quote>, t0: map<string, real>, o0: seq<string>,
                              c1: map<string, Quote>, t1: map<string, real>, o1: seq<string>,
                              symbol: string, now: real, stampMs: int, fetch: FetchOutcome,
                              r: Option<Quote>)
  {
    && (r.None? <==> IsCrypto(symbol))
    && (r.Some? ==> symbol in c1 && r.value == c1[symbol])
    && (IsCrypto(symbol) ==> c1 == c0 && t1 == t0)
    && (!IsCrypto(symbol) && FreshIn(c0, t0, symbol, now) ==>
          r == Some(c0[symbol]) && c1 == c0 && t1 == t0)
    && (!IsCrypto(symbol) && !FreshIn(c0, t0, symbol, now) ==>
          match Formatted(symbol, fetch, stampMs)
          case Some(q) => r == Some(q) && c1 == c0[symbol := q] && t1 == t0[symbol := now]
          case None =>
            if symbol in c0 then r == Some(c0[symbol]) && c1 == c0 && t1 == t0
            else
              && r == Some(MockQuote(symbol, stampMs))
              && c1 == c0[symbol := MockQuote(symbol, stampMs)]
              && t1 == t0[symbol := now])
    && o1 == if symbol in c0 || IsCrypto(symbol) then o0 else o0 + [symbol]
  }

  /** The keys of `keys`, in their order, that are stock symbols last
      written at least 60 seconds before `now`. */
  function StaleSymbols(keys: seq<string>, times: map<string, real>, now: real): (r: seq<string>)
    ensures forall s :: s in r <==> s in keys && !IsCrypto(s) && now - GetOr(times, s, 0.0) >= FreshWindow
    ensures |r| <= |keys|
  {
    if |keys| == 0 then []
    else
      var rest := StaleSymbols(keys[..|keys| - 1], times, now);
      var s := keys[|keys| - 1];
      assert keys == keys[..|keys| - 1] + [s];
      if !IsCrypto(s) && now - GetOr(times, s, 0.0) >= FreshWindow then rest + [s] else rest
  }

  class QuoteCache {
    var stockCache: map<string, Quote>
    var lastRequestTime: map<string, real>
    /** The keys of `stock_cache` in insertion order (a Python dict iterates
        in that order). */
    var order: seq<string>

    /** Both dicts are always written together, so they share their keys. */
    ghost predicate Valid()
      reads this
    {
      && stockCache.Keys == lastRequestTime.Keys
      && Distinct(order)
      && (forall k :: k in order <==> k in stockCache)
    }

    constructor ()
      ensures Valid()
      ensures stockCache == map[] && lastRequestTime == map[] && order == []
    {
      stockCache, lastRequestTime, order := map[], map[], [];
    }

    /** The test of lines 44-47: cached and younger than 60 seconds. */
    predicate IsFresh(symbol: string, now: real)
      reads this
    {
      FreshIn(stockCache, lastRequestTime, symbol, now)
    }

    /** The test of the background refresher: a cached stock symbol whose
        last write is at least 60 seconds old. */
    predicate NeedsRefresh(symbol: string, now: real)
      reads this
    {
      symbol in stockCache && !IsCrypto(symbol)
      && now - GetOr(lastRequestTime, symbol, 0.0) >= FreshWindow
    }

    /** Writes one entry into both dicts. */
    method Store(symbol: string, q: Quote, now: real)
      requires Valid()
      modifies this
      ensures Valid()
      ensures stockCache == old(stockCache)[symbol := q]
      ensures lastRequestTime == old(lastRequestTime)[symbol := now]
      ensures order == if symbol in old(stockCache) then old(order) else old(order) + [symbol]
    {
      if symbol !in stockCache {
        DistinctSnoc(order, symbol);
        order := order + [symbol];
      }
      stockCache := stockCache[symbol := q];
      lastRequestTime := lastRequestTime[symbol := now];
    }

    /** `get_stock_quote`: crypto symbols are refused; a fresh entry is
        reused without a call; a successful call is written into both dicts
        and returned; a failed call returns the old entry when there is one
        and otherwise fabricates, caches and returns the mock quote.
        Whatever is returned is what the cache now holds. */
    method GetStockQuote(symbol: string, now: real, stampMs: int, fetch: FetchOutcome)
      returns (r: Option<Quote>)
      requires Valid()
      modifies this
      ensures Valid()
      ensures QuoteServed(old(stockCache), old(lastRequestTime), old(order),
                          stockCache, lastRequestTime, order, symbol, now, stampMs, fetch, r)
    {
      if IsCrypto(symbol) {
        return None;
      }
      if symbol in stockCache {
        var age := now - GetOr(lastRequestTime, symbol, 0.0);
        if age < FreshWindow {
          return Some(stockCache[symbol]);
        }
      }
      if symbol in lastRequestTime && now - lastRequestTime[symbol] < FreshWindow {
        // The rate-limit test of lines 52-54 is dead: the two dicts share
        // their keys, so this is the freshness test that just failed.
        assert false;
      }
      var q := Formatted(symbol, fetch, stampMs);
      if q.Some? {
        Store(symbol, q.value, now);
        return q;
      }
      if symbol in stockCache {
        return Some(stockCache[symbol]);
      }
      var mock := MockQuote(symbol, stampMs);
      Store(symbol, mock, now);
      return Some(mock);
    }

    /** `get_stock_data_for_broadcast`: the quote `get_stock_quote` serves,
        with the same effect on the cache, wrapped in a `stock_update`
        frame, or None when there is no quote. */
    method GetStockDataForBroadcast(symbol: string, now: real, stampMs: int, fetch: FetchOutcome)
      returns (r: Option<BroadcastFrame>)
      requires Valid()
      modifies this
      ensures Valid()
      ensures r.None? <==> IsCrypto(symbol)
      ensures r.Some? ==> symbol in stockCache && r.value == StockUpdate([stockCache[symbol]])
      ensures QuoteServed(old(stockCache), old(lastRequestTime), old(order),
                          stockCache, lastRequestTime, order, symbol, now, stampMs, fetch,
                          if r.Some? then Some(stockCache[symbol]) else None)
    {
      var quote := GetStockQuote(symbol, now, stampMs, fetch);
      if quote.Some? {
        return Some(StockUpdate([quote.value]));
      }
      return None;
    }

    /** The selection step of `update_stock_cache_periodically`: the cached
        stock symbols whose entry is at least 60 seconds old, each once, in
        the dict's order. */
    method SymbolsToUpdate(now: real) returns (syms: seq<string>)
      requires Valid()
      ensures syms == StaleSymbols(order, lastRequestTime, now)
      ensures forall s :: s in syms <==> NeedsRefresh(s, now)
      ensures Distinct(syms)
    {
      syms := [];
      var i := 0;
      while i < |order|
        invariant 0 <= i <= |order|
        invariant syms == StaleSymbols(order[..i], lastRequestTime, now)
        invariant forall s :: s in syms <==> s in order[..i] && NeedsRefresh(s, now)
        invariant Distinct(syms)
      {
        var symbol := order[i];
        if !IsCrypto(symbol) && now - GetOr(lastRequestTime, symbol, 0.0) >= FreshWindow {
          DistinctNotBefore(order, i);
          DistinctSnoc(syms, symbol);
          syms := syms + [symbol];
        }
        assert order[..i + 1] == order[..i] + [symbol];
        assert order[..i + 1][..i] == order[..i];
        i := i + 1;
      }
      assert order[..i] == order;
    }
  }

  /** The fabricated quote is indistinguishable from a real one: after a
      failed first call for a symbol, a second call within 60 seconds gets
      the 150.00 placeholder back from the cache, whatever the provider
      would now answer. */
  method FabricatedQuoteServedAsFresh(symbol: string, now: real, later: real, stampMs: int,
                                      failure: FetchOutcome, recovered: FetchOutcome)
    returns (second: Option<Quote>)
    requires !IsCrypto(symbol)
    requires Formatted(symbol, failure, stampMs).None?
    requires now <= later < now + FreshWindow
    ensures second == Some(MockQuote(symbol, stampMs))
  {
    var cache := new QuoteCache();
    var first := cache.GetStockQuote(symbol, now, stampMs, failure);
    second := cache.GetStockQuote(symbol, later, stampMs + 1, recovered);
  }
}
