/** `CryptoService` of the crypto package: an in-memory dict from symbol to
    the last data dict stored for it, the fixed list of supported pairs and
    a statistics report. A data dict is modelled as a map from keys to the
    text of their values. */
module CryptoCache {
  import opened WatchList

  type CryptoData = map<string, string>

  datatype CryptoStatistics = CryptoStatistics(
    cryptoSymbols: seq<string>, cachedCount: nat, threadRunning: bool)

  class CryptoService {
    var cache: map<string, CryptoData>

    constructor ()
      ensures cache == map[]
    {
      cache := map[];
    }

    /** `get_cached_crypto_data`: the stored dict, or an empty one for a
        symbol never stored. */
    function GetCachedCryptoData(symbol: string): (d: CryptoData)
      reads this
      ensures symbol !in cache ==> d == map[]
      ensures symbol in cache ==> d == cache[symbol]
    {
      if symbol in cache then cache[symbol] else map[]
    }

    /** `update_cache`: stores (or replaces) the dict of one symbol and no
        other. */
    method UpdateCache(symbol: string, data: CryptoData)
      modifies this
      ensures cache == old(cache)[symbol := data]
      ensures GetCachedCryptoData(symbol) == data
      ensures forall other :: other != symbol ==> GetCachedCryptoData(other) == old(GetCachedCryptoData(other))
      ensures |cache| == if symbol in old(cache) then |old(cache)| else |old(cache)| + 1
    {
      cache := cache[symbol := data];
    }

    /** `get_supported_symbols`: the fixed ten pairs. */
    function GetSupportedSymbols(): (syms: seq<string>)
      ensures syms == Top10Cryptos && |syms| == 10
    {
      Top10Cryptos
    }

    /** `get_statistics`: the supported pairs, the number of distinct cached
        symbols, and a thread flag that is always false (the streaming
        thread is managed elsewhere). */
    function GetStatistics(): (st: CryptoStatistics)
      reads this
      ensures st.cryptoSymbols == Top10Cryptos
      ensures st.cachedCount == |cache.Keys|
      ensures !st.threadRunning
    {
      CryptoStatistics(Top10Cryptos, |cache|, false)
    }
  }

  /** Storing a pair for the first time raises the cached count by one;
      storing it again leaves the count alone. */
  method CachedCountGrowsOnlyForNewSymbols(first: CryptoData, second: CryptoData)
    returns (afterFirst: nat, afterSecond: nat)
    ensures afterFirst == 1 && afterSecond == 1
  {
    var service := new CryptoService();
    service.UpdateCache("BTCUSDT", first);
    afterFirst := service.GetStatistics().cachedCount;
    service.UpdateCache("BTCUSDT", second);
    afterSecond := service.GetStatistics().cachedCount;
  }
}
