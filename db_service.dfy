/** `StockDatabaseService`: the row built by `save_stock_quote` from a quote
    dict with per-field defaults, and the per-symbol request statistics
    record that `update_cache_info` creates or updates in place. The
    session, the query and the commit are not modelled: the record found
    for the symbol (or none) and whether the commit succeeds are inputs,
    and time is the `now` parameter. */
module DbService {
  import opened Common

  /** A quote dict as handed to the save: numeric entries, an optional
      market timestamp 't' and an optional 'data_source'. */
  datatype QuoteInput = QuoteInput(nums: map<string, real>, t: Option<int>,
                                   dataSource: Option<string>)

  /** A `StockQuote` row. */
  datatype StockQuoteRow = StockQuoteRow(
    symbol: string, currentPrice: real, change: real, changePercent: real,
    highPrice: real, lowPrice: real, openPrice: real, previousClose: real,
    volume: real, marketTimestamp: Option<int>, dataSource: string, cacheAge: real)

  /** The dict keys read as numbers, each with a default of 0. */
  datatype NumericKey = C | D | DP | H | L | O | PC | V | CacheAge

  /** The key's name in the quote dict. */
  function KeyName(k: NumericKey): string
  {
    match k
    case C => "c"
    case D => "d"
    case DP => "dp"
    case H => "h"
    case L => "l"
    case O => "o"
    case PC => "pc"
    case V => "v"
    case CacheAge => "cache_age"
  }

  /** The row column filled from a numeric dict key. */
  function NumericColumn(r: StockQuoteRow, k: NumericKey): real
  {
    match k
    case C => r.currentPrice
    case D => r.change
    case DP => r.changePercent
    case H => r.highPrice
    case L => r.lowPrice
    case O => r.openPrice
    case PC => r.previousClose
    case V => r.volume
    case CacheAge => r.cacheAge
  }

  /** The row `save_stock_quote` builds: every numeric column takes its key's
      value or 0 when the key is missing, the market timestamp is left empty
      when 't' is missing, and the data source defaults to "api". */
  function StockQuoteRowOf(q: QuoteInput, symbol: string): (r: StockQuoteRow)
    ensures r.symbol == symbol
    ensures forall k :: NumericColumn(r, k) == GetOr(q.nums, KeyName(k), 0.0)
    ensures forall k :: KeyName(k) !in q.nums ==> NumericColumn(r, k) == 0.0
    ensures r.marketTimestamp == q.t
    ensures q.dataSource.None? ==> r.dataSource == "api"
    ensures q.dataSource.Some? ==> r.dataSource == q.dataSource.value
  {
    StockQuoteRow(symbol, GetOr(q.nums, "c", 0.0), GetOr(q.nums, "d", 0.0), GetOr(q.nums, "dp", 0.0),
                  GetOr(q.nums, "h", 0.0), GetOr(q.nums, "l", 0.0), GetOr(q.nums, "o", 0.0),
                  GetOr(q.nums, "pc", 0.0), GetOr(q.nums, "v", 0.0), q.t,
                  match q.dataSource case Some(src) => src case None => "api",
                  GetOr(q.nums, "cache_age", 0.0))
  }

  /** The `StockCache` record of one symbol: request counters, the times of
      the last update and of the last provider call, and the mean response
      time. */
  class StockCacheRow {
    const symbol: string
    var lastApiCall: real
    var lastUpdate: real
    var apiCallCount: nat
    var cacheHitCount: nat
    var totalRequests: nat
    var avgResponseTime: real

    /** Every request is either a provider call or a cache hit. */
    ghost predicate Valid()
      reads this
    {
      totalRequests == apiCallCount + cacheHitCount
    }

    /** A new record for a first request. Its `last_api_call` is set to now
        whether or not the request was a provider call (both arms of the
        conditional at line 100 give the current time). */
    constructor (symbol: string, isApiCall: bool, responseTime: real, now: real)
      ensures Valid()
      ensures this.symbol == symbol && totalRequests == 1
      ensures apiCallCount == (if isApiCall then 1 else 0)
      ensures cacheHitCount == (if isApiCall then 0 else 1)
      ensures lastApiCall == now && lastUpdate == now
      ensures avgResponseTime == responseTime
    {
      this.symbol := symbol;
      lastApiCall := now;
      lastUpdate := now;
      apiCallCount := if isApiCall then 1 else 0;
      cacheHitCount := if isApiCall then 0 else 1;
      totalRequests := 1;
      avgResponseTime := responseTime;
    }

    /** The in-place update of an existing record: one more request, counted
        as a provider call or as a cache hit; `last_update` is always now and
        `last_api_call` only for a provider call; a positive response time is
        folded into the running mean, any other leaves it alone. */
    method Touch(isApiCall: bool, responseTime: real, now: real)
      modifies this
      ensures old(Valid()) ==> Valid()
      ensures totalRequests == old(totalRequests) + 1
      ensures isApiCall ==> apiCallCount == old(apiCallCount) + 1 && cacheHitCount == old(cacheHitCount)
      ensures !isApiCall ==> cacheHitCount == old(cacheHitCount) + 1 && apiCallCount == old(apiCallCount)
      ensures lastUpdate == now
      ensures lastApiCall == if isApiCall then now else old(lastApiCall)
      ensures responseTime <= 0.0 ==> avgResponseTime == old(avgResponseTime)
      ensures responseTime > 0.0 ==>
                avgResponseTime * totalRequests as real
                == old(avgResponseTime) * old(totalRequests) as real + responseTime
    {
      lastUpdate := now;
      totalRequests := totalRequests + 1;
      if isApiCall {
        lastApiCall := now;
        apiCallCount := apiCallCount + 1;
      } else {
        cacheHitCount := cacheHitCount + 1;
      }
      if responseTime > 0.0 {
        var totalTime := avgResponseTime * (totalRequests - 1) as real;
        avgResponseTime := (totalTime + responseTime) / totalRequests as real;
      }
    }
  }

  class StockDatabaseService {
    /** The `stock_quotes` table, in insertion order. */
    var quotes: seq<StockQuoteRow>

    constructor ()
      ensures quotes == []
    {
      quotes := [];
    }

    /** `save_stock_quote`: appends the defaulted row and reports success
        when the commit goes through; otherwise reports failure and the
        table is unchanged. */
    method SaveStockQuote(q: QuoteInput, symbol: string, commitOk: bool) returns (ok: bool)
      modifies this
      ensures ok == commitOk
      ensures ok ==> quotes == old(quotes) + [StockQuoteRowOf(q, symbol)]
      ensures !ok ==> quotes == old(quotes)
    {
      if !commitOk {
        return false;
      }
      quotes := quotes + [StockQuoteRowOf(q, symbol)];
      return true;
    }

    /** `update_cache_info`: `existing` is the record the query found for
        the symbol, if any. When the commit goes through, that record is
        updated in place as `Touch` does, or, with none found, a new record
        for the symbol is created; the result is the record as stored. When
        the commit fails, the error is swallowed and nothing is stored: the
        record found keeps its stored values and no new record exists. */
    method UpdateCacheInfo(existing: StockCacheRow?, symbol: string, isApiCall: bool,
                           responseTime: real, now: real, commitOk: bool)
      returns (row: StockCacheRow?)
      requires existing != null ==> existing.symbol == symbol
      modifies existing
      ensures !commitOk ==> row == existing && (existing != null ==> unchanged(existing))
      ensures commitOk ==> row != null && row.symbol == symbol && row.lastUpdate == now
      ensures commitOk && existing != null ==>
                && row == existing
                && (old(existing.Valid()) ==> row.Valid())
                && row.totalRequests == old(existing.totalRequests) + 1
                && (isApiCall ==> row.apiCallCount == old(existing.apiCallCount) + 1
                                  && row.cacheHitCount == old(existing.cacheHitCount))
                && (!isApiCall ==> row.cacheHitCount == old(existing.cacheHitCount) + 1
                                   && row.apiCallCount == old(existing.apiCallCount))
                && row.lastApiCall == (if isApiCall then now else old(existing.lastApiCall))
                && (responseTime <= 0.0 ==> row.avgResponseTime == old(existing.avgResponseTime))
                && (responseTime > 0.0 ==>
                      row.avgResponseTime * row.totalRequests as real
                      == old(existing.avgResponseTime) * old(existing.totalRequests) as real + responseTime)
      ensures commitOk && existing == null ==>
                && fresh(row) && row.Valid() && row.totalRequests == 1
                && row.apiCallCount == (if isApiCall then 1 else 0)
                && row.cacheHitCount == (if isApiCall then 0 else 1)
                && row.lastApiCall == now && row.avgResponseTime == responseTime
    {
      if !commitOk {
        return existing;
      }
      if existing != null {
        existing.Touch(isApiCall, responseTime, now);
        row := existing;
      } else {
        row := new StockCacheRow(symbol, isApiCall, responseTime, now);
      }
    }
  }
}
