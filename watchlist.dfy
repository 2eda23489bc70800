/** The fixed symbol universes. The 50 most active US equities appear,
    identical and in the same order, in the scheduler, the auto collector,
    the market handler and the market route; the ten crypto pairs are the
    crypto cache's supported list. */
module WatchList {
  import opened Common

  /** MOST_ACTIVE_STOCKS / `stock_symbols`. */
  const MostActiveStocks: seq<string> := [
    "NVDA", "TSLA", "PLTR", "INTC", "AAPL", "BAC", "AMZN", "AMD", "GOOG", "MSFT",
    "META", "AVGO", "NFLX", "COST", "UNH", "MSTR", "LLY", "CRM", "V", "REGN",
    "APP", "WMT", "XOM", "MRVL", "ORCL", "JPM", "TXN", "ZS", "NOW", "MA",
    "IBM", "UBER", "JNJ", "AMAT", "HOOD", "ADI", "GE", "MU", "PANW", "INTU",
    "ABBV", "PG", "DELL", "CRWD", "SPOT", "LIN", "KO", "TMUS", "QCOM", "F"
  ]

  /** TOP_10_CRYPTOS. */
  const Top10Cryptos: seq<string> := [
    "BTCUSDT", "ETHUSDT", "BNBUSDT", "ADAUSDT", "SOLUSDT",
    "XRPUSDT", "DOTUSDT", "DOGEUSDT", "AVAXUSDT", "SHIBUSDT"
  ]

  /** The watch-list holds 50 symbols. */
  lemma WatchListSize()
    ensures |MostActiveStocks| == 50
  {
  }

  /** The supported crypto list holds 10 symbols. */
  lemma CryptoListSize()
    ensures |Top10Cryptos| == 10
  {
  }
}
