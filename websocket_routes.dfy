/** The market routes of the stock backend (the second copy of the
    module, the one that takes effect if the module's imports resolve): the `market_update` sender that reads the store and falls
    back to the cache, the cache sender itself, the background broadcast
    round, the `/ws/main` session and the per-symbol `/ws/stocks` and
    `/ws/crypto` sessions, all over the flat connection list. Frames are
    the values handed to the manager's `send_personal_message`; whether a
    session has a store session, whether the sender raises, and which
    sends fail are inputs. */
module WebsocketRoutes {
  import opened Common
  import opened WatchList
  import opened MarketFrames
  import opened SymbolStream
  import opened FlatWsManager

  /** A cached quote dict as the cache sender reads it (`c`, `d`, `dp` of a
      stock, `p` of a crypto, as numbers). */
  type CachedEntry = map<string, real>

  /** The points the cache sender invents for a chart when there is no
      history: point n sits at `c + c * 0.001 * (n - 16)`. */
  function Ramp(c: real, n: nat): (r: seq<Point>)
    ensures |r| == n
    ensures forall k :: 0 <= k < n ==> r[k] == Point(k + 1, c + c * 0.001 * ((k - 15) as real))
  {
    seq(n, k => Point(k + 1, c + c * 0.001 * ((k - 15) as real)))
  }

  /** The invented chart has 30 points at times 1..30; the 16th is the
      current price itself, and points at equal distance on either side of
      it average to it. */
  lemma CachedChartShape(c: real)
    ensures |Ramp(c, 30)| == 30
    ensures forall k :: 0 <= k < 30 ==> Ramp(c, 30)[k].time == k + 1
    ensures Ramp(c, 30)[15].price == c
    ensures forall k :: 1 <= k < 30 ==> Ramp(c, 30)[k].price + Ramp(c, 30)[30 - k].price == 2.0 * c
  {
    var r := Ramp(c, 30);
    forall k | 1 <= k < 30 ensures r[k].price + r[30 - k].price == 2.0 * c {
      var x := (k - 15) as real;
      assert r[k].price == c + c * 0.001 * x;
      assert r[30 - k].price == c + c * 0.001 * (-x);
    }
  }

  /** For a non-negative price every invented point stays within -1.5% ..
      +1.4% of it (the "±1.5%" variation of the chart). */
  lemma CachedChartBand(c: real)
    requires c >= 0.0
    ensures forall k :: 0 <= k < 30 ==> 0.985 * c <= Ramp(c, 30)[k].price <= 1.014 * c
  {
    var r := Ramp(c, 30);
    forall k | 0 <= k < 30 ensures 0.985 * c <= r[k].price <= 1.014 * c {
      var x, step := (k - 15) as real, c * 0.001;
      assert r[k].price == c + step * x;
      MulBounds(step, x, -15.0, 14.0);
      assert step * -15.0 == -0.015 * c && step * 14.0 == 0.014 * c;
    }
  }

  /** Scaling a bounded factor by a non-negative amount. */
  lemma MulBounds(c: real, x: real, lo: real, hi: real)
    requires c >= 0.0 && lo <= x <= hi
    ensures c * lo <= c * x <= c * hi
  {
    assert c * x - c * lo == c * (x - lo);
    assert c * hi - c * x == c * (hi - x);
  }

  /** The cache sender's item for one symbol: None when the cache holds
      nothing (or an empty dict) for it; otherwise the cached price with an
      invented 30-point chart, the cached changes of a stock (0 when
      absent), no change for a crypto, the current time, marked `cache`. */
  function CachedItemOf(symbol: string, cache: map<string, CachedEntry>, isCrypto: bool, now: int)
    : (r: Option<Item>)
    ensures r.Some? <==> symbol in cache && cache[symbol] != map[]
    ensures r.Some? ==>
              var it, e := r.value, cache[symbol];
              && it.symbol == symbol && it.dataSource == "cache" && it.timestamp == now
              && it.price == GetOr(e, if isCrypto then "p" else "c", 0.0)
              && it.change == (if isCrypto then 0.0 else GetOr(e, "d", 0.0))
              && it.changePercent == (if isCrypto then 0.0 else GetOr(e, "dp", 0.0))
              && it.history == Ramp(it.price, 30)
  {
    if symbol !in cache || cache[symbol] == map[] then None
    else
      var e := cache[symbol];
      var c := GetOr(e, if isCrypto then "p" else "c", 0.0);
      Some(Item(symbol, c,
                if isCrypto then 0.0 else GetOr(e, "d", 0.0),
                if isCrypto then 0.0 else GetOr(e, "dp", 0.0),
                Ramp(c, 30), now, "cache"))
  }

  /** The cache sender's items for a symbol list: one per cached symbol, in
      list order. */
  function CachedItems(symbols: seq<string>, cache: map<string, CachedEntry>, isCrypto: bool, now: int)
    : (r: seq<Item>)
    ensures |r| <= |symbols|
    ensures forall i :: 0 <= i < |r| ==>
              r[i].symbol in symbols && CachedItemOf(r[i].symbol, cache, isCrypto, now) == Some(r[i])
    ensures forall s :: s in symbols && s in cache && cache[s] != map[] ==>
              CachedItemOf(s, cache, isCrypto, now).value in r
    decreases |symbols|
  {
    if |symbols| == 0 then []
    else
      var before, s := symbols[..|symbols| - 1], symbols[|symbols| - 1];
      assert forall t :: t in symbols ==> t in before || t == s;
      var item := CachedItemOf(s, cache, isCrypto, now);
      CachedItems(before, cache, isCrypto, now) + (if item.Some? then [item.value] else [])
  }

  /** The frame of the cache sender. */
  function CachedFrame(stockCache: map<string, CachedEntry>, cryptoCache: map<string, CachedEntry>, now: int)
    : (f: MarketFrame)
    ensures f.dataSource == "cache"
    ensures |f.stocks| <= 50 && |f.cryptos| <= 10
  {
    MarketFrame(CachedItems(MostActiveStocks, stockCache, false, now),
                CachedItems(Top10Cryptos, cryptoCache, true, now), "cache")
  }

  /** The `for i in range(30)` chart loop of the cache sender. */
  method CachedHistory(c: real) returns (points: seq<Point>)
    ensures points == Ramp(c, 30)
  {
    points := [];
    var i := 0;
    while i < 30
      invariant 0 <= i <= 30 && |points| == i
      invariant forall k :: 0 <= k < i ==> points[k] == Point(k + 1, c + c * 0.001 * ((k - 15) as real))
    {
      points := points + [Point(i + 1, c + c * 0.001 * ((i - 15) as real))];
      i := i + 1;
    }
  }

  /** The cache sender's loop over one symbol list. */
  method CollectCachedItems(symbols: seq<string>, cache: map<string, CachedEntry>, isCrypto: bool, now: int)
    returns (items: seq<Item>)
    ensures items == CachedItems(symbols, cache, isCrypto, now)
  {
    items := [];
    var i := 0;
    while i < |symbols|
      invariant 0 <= i <= |symbols|
      invariant items == CachedItems(symbols[..i], cache, isCrypto, now)
    {
      var symbol := symbols[i];
      assert symbols[..i + 1][..i] == symbols[..i];
      if symbol in cache && cache[symbol] != map[] {
        var e := cache[symbol];
        var c := GetOr(e, if isCrypto then "p" else "c", 0.0);
        var history := CachedHistory(c);
        items := items + [Item(symbol, c,
                               if isCrypto then 0.0 else GetOr(e, "d", 0.0),
                               if isCrypto then 0.0 else GetOr(e, "dp", 0.0),
                               history, now, "cache")];
      }
      i := i + 1;
    }
    assert symbols[..i] == symbols;
  }

  /** `send_cached_market_data`: the frame built from the caches, or
      nothing when the sender raises (it only logs). Its imports name
      helpers that services/stock_service.py does not define, which is one
      way for it to raise. */
  method SendCachedMarketData(stockCache: map<string, CachedEntry>, cryptoCache: map<string, CachedEntry>,
                              now: int, raises: bool)
    returns (sent: Option<MarketFrame>)
    ensures raises ==> sent.None?
    ensures !raises ==> sent == Some(CachedFrame(stockCache, cryptoCache, now))
  {
    if raises {
      return None;
    }
    var stocks := CollectCachedItems(MostActiveStocks, stockCache, false, now);
    var cryptos := CollectCachedItems(Top10Cryptos, cryptoCache, true, now);
    sent := Some(MarketFrame(stocks, cryptos, "cache"));
  }

  /** What the store-reading sender hands over: without a store session, or
      when it raises outside the per-symbol blocks, whatever the cache
      sender sends; otherwise the store frame. `hasSession == false` is the
      `db is None` test of the function itself (websocket_routes.py:568);
      every caller in the code passes a fresh `SessionLocal()`, so none of
      them takes that branch; the sessions below keep it as an input. A `SessionLocal()` that fails never reaches
      this function: it escapes `/ws/main`, whose handler catches only
      `WebSocketDisconnect`, and is swallowed by the broadcast round's
      outer handler. */
  function MarketDataFromDb(hasSession: bool, stockDb: map<string, Query>, cryptoDb: map<string, Query>,
                            dbRaises: bool, stockCache: map<string, CachedEntry>,
                            cryptoCache: map<string, CachedEntry>, now: int, cacheRaises: bool)
    : (sent: Option<MarketFrame>)
    ensures hasSession && !dbRaises ==> sent.Some? && sent.value.dataSource == "database"
    ensures sent.Some? && sent.value.dataSource == "cache" ==> !hasSession || dbRaises
    ensures sent.None? <==> (!hasSession || dbRaises) && cacheRaises
  {
    if hasSession && !dbRaises then
      Some(MarketFrame(Items(MostActiveStocks, stockDb, false), Items(Top10Cryptos, cryptoDb, true), "database"))
    else if cacheRaises then None
    else Some(CachedFrame(stockCache, cryptoCache, now))
  }

  /** `send_market_data_from_db`. */
  method SendMarketDataFromDb(hasSession: bool, stockDb: map<string, Query>, cryptoDb: map<string, Query>,
                              dbRaises: bool, stockCache: map<string, CachedEntry>,
                              cryptoCache: map<string, CachedEntry>, now: int, cacheRaises: bool)
    returns (sent: Option<MarketFrame>)
    ensures sent == MarketDataFromDb(hasSession, stockDb, cryptoDb, dbRaises, stockCache, cryptoCache, now, cacheRaises)
  {
    if !hasSession {
      sent := SendCachedMarketData(stockCache, cryptoCache, now, cacheRaises);
      return;
    }
    var frame := CollectMarketFrame(stockDb, cryptoDb);
    if dbRaises {
      sent := SendCachedMarketData(stockCache, cryptoCache, now, cacheRaises);
      return;
    }
    sent := Some(frame);
  }

  /** A session's sends to its own connection, registered at most once:
      each is handed to the manager, which swallows a failure and
      disconnects the connection; the session never notices. */
  method SendAll(manager: WebSocketManager, ws: ConnId, count: nat, failing: set<ConnId>)
    requires ws !in RemoveFirst(manager.activeConnections, ws)
    modifies manager
    ensures ws !in failing || count == 0 ==> manager.activeConnections == old(manager.activeConnections)
    ensures ws in failing && count > 0 ==>
              manager.activeConnections == RemoveFirst(old(manager.activeConnections), ws)
  {
    var i := 0;
    while i < count
      invariant 0 <= i <= count
      invariant ws !in failing || i == 0 ==> manager.activeConnections == old(manager.activeConnections)
      invariant ws in failing && i > 0 ==>
                  manager.activeConnections == RemoveFirst(old(manager.activeConnections), ws)
    {
      var delivered := manager.SendPersonalMessage(ws, failing);
      i := i + 1;
    }
  }

  /** The number of `"get_latest"` requests among a session's messages. */
  function GetLatestCount(messages: seq<string>): (n: nat)
    ensures n <= |messages|
    ensures n == 0 <==> "get_latest" !in messages
    decreases |messages|
  {
    if |messages| == 0 then 0
    else
      var before := messages[..|messages| - 1];
      assert forall m :: m in messages <==> m in before || m == messages[|messages| - 1];
      GetLatestCount(before) + (if messages[|messages| - 1] == "get_latest" then 1 else 0)
  }

  /** The receive loop of a `/ws/main` session: one more market frame for
      each `"get_latest"` message, in order. */
  method Replies(messages: seq<string>,
                 hasSession: bool, stockDb: map<string, Query>, cryptoDb: map<string, Query>,
                 dbRaises: bool, stockCache: map<string, CachedEntry>,
                 cryptoCache: map<string, CachedEntry>, now: int, cacheRaises: bool)
    returns (frames: seq<MarketFrame>)
    ensures var sent := MarketDataFromDb(hasSession, stockDb, cryptoDb, dbRaises, stockCache, cryptoCache, now, cacheRaises);
            && (sent.None? ==> frames == [])
            && (sent.Some? ==> |frames| == GetLatestCount(messages)
                               && forall k :: 0 <= k < |frames| ==> frames[k] == sent.value)
  {
    ghost var frame := MarketDataFromDb(hasSession, stockDb, cryptoDb, dbRaises, stockCache, cryptoCache, now, cacheRaises);
    frames := [];
    var i := 0;
    while i < |messages|
      invariant 0 <= i <= |messages|
      invariant frame.None? ==> frames == []
      invariant frame.Some? ==> |frames| == GetLatestCount(messages[..i])
      invariant frame.Some? ==> forall k :: 0 <= k < |frames| ==> frames[k] == frame.value
    {
      assert messages[..i + 1][..i] == messages[..i];
      if messages[i] == "get_latest" {
        var reply := SendMarketDataFromDb(hasSession, stockDb, cryptoDb, dbRaises, stockCache, cryptoCache, now, cacheRaises);
        if reply.Some? {
          frames := frames + [reply.value];
        }
      }
      i := i + 1;
    }
    assert messages[..i] == messages;
  }

  /** The `/ws/main` session of a new connection: it is registered, sent
      the market frame once, and sent it again for every `"get_latest"`
      message until the client leaves. Leaving breaks the receive loop
      normally, so the session's disconnect handler never runs: the
      connection stays registered, unless a send to it failed (the manager
      then dropped it). The store is taken as fixed for the session. */
  method MainSession(manager: WebSocketManager, ws: ConnId, messages: seq<string>,
                     hasSession: bool, stockDb: map<string, Query>, cryptoDb: map<string, Query>,
                     dbRaises: bool, stockCache: map<string, CachedEntry>,
                     cryptoCache: map<string, CachedEntry>, now: int, cacheRaises: bool,
                     failing: set<ConnId>)
    returns (frames: seq<MarketFrame>)
    requires ws !in manager.activeConnections
    modifies manager
    ensures var sent := MarketDataFromDb(hasSession, stockDb, cryptoDb, dbRaises, stockCache, cryptoCache, now, cacheRaises);
            && (sent.None? ==> frames == [])
            && (sent.Some? ==> |frames| == 1 + GetLatestCount(messages)
                               && forall k :: 0 <= k < |frames| ==> frames[k] == sent.value)
    ensures ws !in failing || frames == [] ==>
              manager.activeConnections == old(manager.activeConnections) + [ws]
    ensures ws in failing && frames != [] ==> manager.activeConnections == old(manager.activeConnections)
  {
    manager.Connect(ws);
    RemoveFirstAppended(old(manager.activeConnections), ws);
    var first := SendMarketDataFromDb(hasSession, stockDb, cryptoDb, dbRaises, stockCache, cryptoCache, now, cacheRaises);
    var replies := Replies(messages, hasSession, stockDb, cryptoDb, dbRaises, stockCache, cryptoCache, now, cacheRaises);
    frames := (if first.Some? then [first.value] else []) + replies;
    SendAll(manager, ws, |frames|, failing);
  }

  /** The `/ws/stocks` session: registered, then one `stock_update` frame
      per tick for the symbol as given, until a tick raises. Nothing in the
      loop can raise the disconnect the session waits for, so the
      connection is never dropped by the session itself. */
  method StocksSession(manager: WebSocketManager, ws: ConnId, symbol: string,
                       stores: seq<map<string, Query>>, failing: set<ConnId>)
    returns (frames: seq<SymbolFrame>)
    requires ws !in manager.activeConnections
    modifies manager
    ensures |frames| <= |stores|
    ensures forall k :: 0 <= k < |frames| ==>
              FrameOf("stock_update", symbol, QueryOf(stores[k], symbol)) == Some(frames[k])
    ensures |frames| < |stores| ==> FrameOf("stock_update", symbol, QueryOf(stores[|frames|], symbol)).None?
    ensures ws !in failing || frames == [] ==>
              manager.activeConnections == old(manager.activeConnections) + [ws]
    ensures ws in failing && frames != [] ==> manager.activeConnections == old(manager.activeConnections)
  {
    manager.Connect(ws);
    RemoveFirstAppended(old(manager.activeConnections), ws);
    frames := Stream("stock_update", symbol, symbol, stores);
    SendAll(manager, ws, |frames|, failing);
  }

  /** The `/ws/crypto` session: as the stock one, with the symbol upper-cased
      both in the query and in every frame, and `crypto_update` frames. */
  method CryptoSession(manager: WebSocketManager, ws: ConnId, symbol: string,
                       stores: seq<map<string, Query>>, failing: set<ConnId>)
    returns (frames: seq<SymbolFrame>)
    requires ws !in manager.activeConnections
    modifies manager
    ensures |frames| <= |stores|
    ensures forall k :: 0 <= k < |frames| ==>
              FrameOf("crypto_update", Upper(symbol), QueryOf(stores[k], Upper(symbol))) == Some(frames[k])
    ensures |frames| < |stores| ==>
              FrameOf("crypto_update", Upper(symbol), QueryOf(stores[|frames|], Upper(symbol))).None?
    ensures ws !in failing || frames == [] ==>
              manager.activeConnections == old(manager.activeConnections) + [ws]
    ensures ws in failing && frames != [] ==> manager.activeConnections == old(manager.activeConnections)
  {
    manager.Connect(ws);
    RemoveFirstAppended(old(manager.activeConnections), ws);
    var upper := Upper(symbol);
    frames := Stream("crypto_update", upper, upper, stores);
    SendAll(manager, ws, |frames|, failing);
  }

  /** The list after the first `i` sends of a round: the survivors among
      those connections, followed by the rest of the snapshot. */
  function AfterSends(snapshot: seq<ConnId>, i: nat, failing: set<ConnId>): seq<ConnId>
    requires i <= |snapshot|
  {
    Surviving(snapshot[..i], failing) + snapshot[i..]
  }

  /** A failed send drops exactly the connection sent to, which the
      survivors before it do not contain. */
  lemma SendStepFailed(snapshot: seq<ConnId>, i: nat, failing: set<ConnId>)
    requires i < |snapshot| && snapshot[i] in failing
    ensures RemoveFirst(AfterSends(snapshot, i, failing), snapshot[i]) == AfterSends(snapshot, i + 1, failing)
  {
    var ws, kept, rest := snapshot[i], Surviving(snapshot[..i], failing), snapshot[i + 1..];
    assert AfterSends(snapshot, i, failing) == kept + ([ws] + rest) by {
      assert snapshot[i..] == [ws] + rest;
    }
    assert AfterSends(snapshot, i + 1, failing) == kept + rest by {
      assert snapshot[..i + 1] == snapshot[..i] + [ws];
      SurvivingSnoc(snapshot[..i], ws, failing);
    }
    RemoveFirstAfter(kept, ws, rest);
  }

  /** A delivered send leaves the list as it was; the connection joins the
      survivors. */
  lemma SendStepKept(snapshot: seq<ConnId>, i: nat, failing: set<ConnId>)
    requires i < |snapshot| && snapshot[i] !in failing
    ensures AfterSends(snapshot, i, failing) == AfterSends(snapshot, i + 1, failing)
  {
    var ws, kept, rest := snapshot[i], Surviving(snapshot[..i], failing), snapshot[i + 1..];
    assert AfterSends(snapshot, i, failing) == kept + ([ws] + rest) by {
      assert snapshot[i..] == [ws] + rest;
    }
    assert AfterSends(snapshot, i + 1, failing) == (kept + [ws]) + rest by {
      assert snapshot[..i + 1] == snapshot[..i] + [ws];
      SurvivingSnoc(snapshot[..i], ws, failing);
    }
  }

  /** Before the first send the list is the snapshot; after the last, the
      survivors. */
  lemma SendsBounds(snapshot: seq<ConnId>, failing: set<ConnId>)
    ensures AfterSends(snapshot, 0, failing) == snapshot
    ensures AfterSends(snapshot, |snapshot|, failing) == Surviving(snapshot, failing)
  {
    assert snapshot[..0] == [] && snapshot[0..] == snapshot;
    assert snapshot[..|snapshot|] == snapshot && snapshot[|snapshot|..] == [];
  }

  /** Sending to every connection of a snapshot of the list, in order: the
      manager drops each one whose send fails, leaving the snapshot without
      them, in order. */
  method SendToEach(manager: WebSocketManager, snapshot: seq<ConnId>, failing: set<ConnId>)
    requires manager.activeConnections == snapshot
    modifies manager
    ensures manager.activeConnections == Surviving(snapshot, failing)
  {
    SendsBounds(snapshot, failing);
    var i := 0;
    while i < |snapshot|
      invariant 0 <= i <= |snapshot|
      invariant manager.activeConnections == AfterSends(snapshot, i, failing)
    {
      if snapshot[i] in failing {
        SendStepFailed(snapshot, i, failing);
      } else {
        SendStepKept(snapshot, i, failing);
      }
      var delivered := manager.SendPersonalMessage(snapshot[i], failing);
      i := i + 1;
    }
  }

  /** One round of `broadcast_market_data`: with connections present, each
      connection of a snapshot of the list is sent the market frame (which
      does not depend on the connection, so it is built once here); the
      manager drops every connection whose send fails. With no
      connections, or when the sender hands over nothing, the list is
      untouched. */
  method BroadcastRound(manager: WebSocketManager,
                        hasSession: bool, stockDb: map<string, Query>, cryptoDb: map<string, Query>,
                        dbRaises: bool, stockCache: map<string, CachedEntry>,
                        cryptoCache: map<string, CachedEntry>, now: int, cacheRaises: bool,
                        failing: set<ConnId>)
    returns (attempted: seq<ConnId>)
    modifies manager
    ensures MarketDataFromDb(hasSession, stockDb, cryptoDb, dbRaises, stockCache, cryptoCache, now, cacheRaises).Some? ==>
              attempted == old(manager.activeConnections)
              && manager.activeConnections == Surviving(old(manager.activeConnections), failing)
    ensures MarketDataFromDb(hasSession, stockDb, cryptoDb, dbRaises, stockCache, cryptoCache, now, cacheRaises).None? ==>
              attempted == [] && manager.activeConnections == old(manager.activeConnections)
  {
    attempted := [];
    var snapshot := manager.activeConnections;
    if |snapshot| == 0 {
      assert Surviving(snapshot, failing) == [];
      return;
    }
    var sent := SendMarketDataFromDb(hasSession, stockDb, cryptoDb, dbRaises, stockCache, cryptoCache, now, cacheRaises);
    if sent.Some? {
      SendToEach(manager, snapshot, failing);
      attempted := snapshot;
    }
  }
}
