/** The market-data handler of the typed connection manager: the `/ws/main`
    frame built from the last 30 rows of each watch-list stock and supported
    crypto, sent to one connection or to every connection of type "main".
    Sends go through the manager, which disconnects a connection whose send
    raises and swallows the error. Whether the session can be opened and
    whether the sender's imports resolve are inputs; the stores do not change
    during one call. */
module MarketHandler {
  import opened Common
  import opened WatchList
  import opened MarketFrames
  import opened ConnectionManager

  /** The fallback frame: no stocks, no cryptos, marked `cache`. */
  const CacheFallback: MarketFrame := MarketFrame([], [], "cache")

  /** The frame `send_market_data_from_db` sends for the given stock and
      crypto lists: the database frame, or the empty fallback when the
      sender raises before sending (`raises`). */
  function HandlerFrame(stocks: seq<string>, cryptos: seq<string>, stockDb: map<string, Query>,
                        cryptoDb: map<string, Query>, raises: bool)
    : (f: MarketFrame)
    ensures f.dataSource == "cache" <==> raises
    ensures raises ==> f.stocks == [] && f.cryptos == []
  {
    if raises then CacheFallback
    else MarketFrame(Items(stocks, stockDb, false), Items(cryptos, cryptoDb, true), "database")
  }

  /** A database frame holds at most one item per watch-list stock and per
      supported crypto: each item is the one its symbol's rows give, and
      every symbol whose rows give an item has it in the frame. */
  lemma HandlerFrameShape(stockDb: map<string, Query>, cryptoDb: map<string, Query>, raises: bool)
    ensures var f := HandlerFrame(MostActiveStocks, Top10Cryptos, stockDb, cryptoDb, raises);
            && (!raises ==> f.dataSource == "database" && |f.stocks| <= 50 && |f.cryptos| <= 10)
            && (forall i :: 0 <= i < |f.stocks| ==>
                  f.stocks[i].symbol in MostActiveStocks
                  && ItemOf(f.stocks[i].symbol, QueryOf(stockDb, f.stocks[i].symbol), false) == Some(f.stocks[i]))
            && (forall i :: 0 <= i < |f.cryptos| ==>
                  f.cryptos[i].symbol in Top10Cryptos
                  && ItemOf(f.cryptos[i].symbol, QueryOf(cryptoDb, f.cryptos[i].symbol), true) == Some(f.cryptos[i]))
            && (!raises ==> forall s :: s in MostActiveStocks && ItemOf(s, QueryOf(stockDb, s), false).Some? ==>
                  ItemOf(s, QueryOf(stockDb, s), false).value in f.stocks)
            && (!raises ==> forall s :: s in Top10Cryptos && ItemOf(s, QueryOf(cryptoDb, s), true).Some? ==>
                  ItemOf(s, QueryOf(cryptoDb, s), true).value in f.cryptos)
  {
    WatchListSize();
    CryptoListSize();
    if !raises {
      var f := HandlerFrame(MostActiveStocks, Top10Cryptos, stockDb, cryptoDb, raises);
      assert f.stocks == Items(MostActiveStocks, stockDb, false);
      assert f.cryptos == Items(Top10Cryptos, cryptoDb, true);
      ItemsMembers(MostActiveStocks, stockDb, false);
      ItemsMembers(Top10Cryptos, cryptoDb, true);
    }
  }

  class MarketDataHandler {
    const manager: WebSocketManager
    /** The `stock_symbols` literal and `TOP_10_CRYPTOS`: the watch-list and
        the ten crypto pairs. */
    const stockSymbols: seq<string>
    const cryptoSymbols: seq<string>

    constructor (manager: WebSocketManager)
      ensures this.manager == manager
      ensures stockSymbols == MostActiveStocks && cryptoSymbols == Top10Cryptos
    {
      this.manager := manager;
      stockSymbols := MostActiveStocks;
      cryptoSymbols := Top10Cryptos;
    }

    /** `send_cached_market_data`: the empty fallback, sent to `ws`. */
    method SendCachedMarketData(ws: ConnId, failing: set<ConnId>) returns (frame: MarketFrame)
      requires manager.Valid()
      modifies manager
      ensures manager.Valid()
      ensures frame == CacheFallback
      ensures ws in failing && ws in old(manager.activeConnections) ==>
                manager.activeConnections == RemoveFirst(old(manager.activeConnections), ws)
                && manager.connectionData == old(manager.connectionData) - {ws}
      ensures ws !in failing || ws !in old(manager.activeConnections) ==> unchanged(manager)
    {
      frame := CacheFallback;
      var _ := manager.SendPersonalMessage(ws, failing);
    }

    /** `send_market_data_from_db`: the frame is built and sent once; a
        failure before the send falls back to the cached frame. A failed
        send only disconnects `ws`. */
    method SendMarketDataFromDb(ws: ConnId, stockDb: map<string, Query>, cryptoDb: map<string, Query>,
                                raises: bool, failing: set<ConnId>) returns (frame: MarketFrame)
      requires manager.Valid()
      modifies manager
      ensures manager.Valid()
      ensures frame == HandlerFrame(stockSymbols, cryptoSymbols, stockDb, cryptoDb, raises)
      ensures ws in failing && ws in old(manager.activeConnections) ==>
                manager.activeConnections == RemoveFirst(old(manager.activeConnections), ws)
                && manager.connectionData == old(manager.connectionData) - {ws}
      ensures ws !in failing || ws !in old(manager.activeConnections) ==> unchanged(manager)
    {
      if raises {
        frame := SendCachedMarketData(ws, failing);
        return;
      }
      var stocks := CollectItems(stockSymbols, stockDb, false);
      var cryptos := CollectItems(cryptoSymbols, cryptoDb, true);
      frame := MarketFrame(stocks, cryptos, "database");
      var _ := manager.SendPersonalMessage(ws, failing);
    }

    /** `send_initial_data` (and `send_latest_data`, which only calls it):
        the database frame when a session opens, the cached frame when it
        does not. */
    method SendInitialData(ws: ConnId, sessionOpens: bool, stockDb: map<string, Query>,
                           cryptoDb: map<string, Query>, raises: bool, failing: set<ConnId>)
      returns (frame: MarketFrame)
      requires manager.Valid()
      modifies manager
      ensures manager.Valid()
      ensures frame == if sessionOpens then HandlerFrame(stockSymbols, cryptoSymbols, stockDb, cryptoDb, raises)
                       else CacheFallback
      ensures ws in failing && ws in old(manager.activeConnections) ==>
                manager.activeConnections == RemoveFirst(old(manager.activeConnections), ws)
                && manager.connectionData == old(manager.connectionData) - {ws}
      ensures ws !in failing || ws !in old(manager.activeConnections) ==> unchanged(manager)
    {
      if !sessionOpens {
        frame := SendCachedMarketData(ws, failing);
        return;
      }
      frame := SendMarketDataFromDb(ws, stockDb, cryptoDb, raises, failing);
    }

    /** `broadcast_market_data`: when a session opens, every connection of
        type "main" (a copy taken first) is sent the same frame; exactly the
        targets whose send fails are disconnected, in order, and every other
        connection stays. Without a session nothing is sent. */
    method BroadcastMarketData(sessionOpens: bool, stockDb: map<string, Query>,
                               cryptoDb: map<string, Query>, raises: bool, failing: set<ConnId>)
      returns (targets: seq<ConnId>, sent: seq<MarketFrame>)
      requires manager.Valid()
      modifies manager
      ensures manager.Valid()
      ensures !sessionOpens ==> targets == [] && sent == [] && unchanged(manager)
      ensures sessionOpens ==> targets == old(manager.GetConnectionsByType("main"))
      ensures |sent| == |targets|
      ensures forall k :: 0 <= k < |sent| ==>
                sent[k] == HandlerFrame(stockSymbols, cryptoSymbols, stockDb, cryptoDb, raises)
      ensures manager.activeConnections == RemoveEach(old(manager.activeConnections), FailedIn(targets, failing))
      ensures manager.connectionData == old(manager.connectionData) - Elems(FailedIn(targets, failing))
      ensures forall c :: c !in failing || c !in targets ==>
                (c in manager.activeConnections <==> c in old(manager.activeConnections))
    {
      if !sessionOpens {
        return [], [];
      }
      targets := manager.GetConnectionsByType("main");
      sent := SendToEach(targets, stockDb, cryptoDb, raises, failing);
      UntargetedStay(old(manager.activeConnections), targets, failing);
    }

    /** The loop over the copied targets, each still active and listed
        once: each is sent the frame in turn, and a failed send disconnects
        it. */
    method SendToEach(targets: seq<ConnId>, stockDb: map<string, Query>,
                      cryptoDb: map<string, Query>, raises: bool, failing: set<ConnId>)
      returns (sent: seq<MarketFrame>)
      requires manager.Valid()
      requires Distinct(targets) && forall k :: 0 <= k < |targets| ==> targets[k] in manager.activeConnections
      modifies manager
      ensures manager.Valid()
      ensures |sent| == |targets|
      ensures forall k :: 0 <= k < |sent| ==>
                sent[k] == HandlerFrame(stockSymbols, cryptoSymbols, stockDb, cryptoDb, raises)
      ensures manager.activeConnections == RemoveEach(old(manager.activeConnections), FailedIn(targets, failing))
      ensures manager.connectionData == old(manager.connectionData) - Elems(FailedIn(targets, failing))
    {
      ghost var start, startData := manager.activeConnections, manager.connectionData;
      ghost var expected := HandlerFrame(stockSymbols, cryptoSymbols, stockDb, cryptoDb, raises);
      sent := [];
      var i := 0;
      assert targets[..0] == [];
      while i < |targets|
        invariant 0 <= i <= |targets| && sent == Repeated(expected, i)
        invariant forall k :: 0 <= k < |targets| ==> targets[k] in start
        invariant SentTo(manager, start, startData, targets, i, failing)
      {
        var frame := SendToTarget(targets, i, start, startData, stockDb, cryptoDb, raises, failing);
        assert Repeated(expected, i) + [frame] == Repeated(expected, i + 1);
        sent := sent + [frame];
        i := i + 1;
      }
      assert targets[..i] == targets;
    }

    /** One turn of the loop: `send_market_data_from_db` to the i-th
        target, which is still active; a failed send disconnects it and
        extends the disconnected prefix. */
    method SendToTarget(targets: seq<ConnId>, i: nat, ghost start: seq<ConnId>,
                        ghost startData: map<ConnId, Metadata>, stockDb: map<string, Query>,
                        cryptoDb: map<string, Query>, raises: bool, failing: set<ConnId>)
      returns (frame: MarketFrame)
      requires i < |targets| && Distinct(targets) && targets[i] in start
      requires SentTo(manager, start, startData, targets, i, failing)
      modifies manager
      ensures frame == HandlerFrame(stockSymbols, cryptoSymbols, stockDb, cryptoDb, raises)
      ensures SentTo(manager, start, startData, targets, i + 1, failing)
    {
      if targets[i] in failing {
        MainSendFailed(start, startData, targets, i, failing);
      } else {
        MainSendKept(start, startData, targets, i, failing);
      }
      frame := SendMarketDataFromDb(targets[i], stockDb, cryptoDb, raises, failing);
    }
  }

  /** A connection that is not a target, or whose send succeeds, keeps its
      place or its absence. */
  lemma UntargetedStay(start: seq<ConnId>, targets: seq<ConnId>, failing: set<ConnId>)
    ensures forall c :: c !in failing || c !in targets ==>
              (c in RemoveEach(start, FailedIn(targets, failing)) <==> c in start)
  {
    forall c | c !in failing || c !in targets
      ensures c in RemoveEach(start, FailedIn(targets, failing)) <==> c in start
    {
      OthersStay(start, FailedIn(targets, failing), c);
    }
  }

  /** The manager once the first i targets have been sent to. */
  ghost predicate SentTo(m: WebSocketManager, start: seq<ConnId>, startData: map<ConnId, Metadata>,
                         targets: seq<ConnId>, i: nat, failing: set<ConnId>)
    reads m
    requires i <= |targets|
  {
    && m.Valid()
    && m.activeConnections == ActiveAfter(start, targets, i, failing)
    && m.connectionData == DataAfter(startData, targets, i, failing)
  }

  /** The connection list once the first i targets have been sent to. */
  function ActiveAfter(start: seq<ConnId>, targets: seq<ConnId>, i: nat, failing: set<ConnId>): seq<ConnId>
    requires i <= |targets|
  {
    RemoveEach(start, FailedIn(targets[..i], failing))
  }

  /** The metadata once the first i targets have been sent to. */
  function DataAfter(startData: map<ConnId, Metadata>, targets: seq<ConnId>, i: nat, failing: set<ConnId>)
    : map<ConnId, Metadata>
    requires i <= |targets|
  {
    startData - Elems(FailedIn(targets[..i], failing))
  }

  /** A failed send of the broadcast: the i-th target is still active when
      its turn comes, and disconnecting it extends the disconnected prefix. */
  lemma MainSendFailed(start: seq<ConnId>, startData: map<ConnId, Metadata>, targets: seq<ConnId>,
                       i: nat, failing: set<ConnId>)
    requires i < |targets| && Distinct(targets) && targets[i] in start && targets[i] in failing
    ensures targets[i] in ActiveAfter(start, targets, i, failing)
    ensures ActiveAfter(start, targets, i + 1, failing) == RemoveFirst(ActiveAfter(start, targets, i, failing), targets[i])
    ensures DataAfter(startData, targets, i + 1, failing) == DataAfter(startData, targets, i, failing) - {targets[i]}
  {
    var before, ws := targets[..i], targets[i];
    assert targets[..i + 1] == before + [ws];
    FailedInSnoc(before, ws, failing);
    DistinctNotBefore(targets, i);
    OthersStay(start, FailedIn(before, failing), ws);
    RemoveEachSnoc(start, FailedIn(before, failing), ws);
    ElemsSnoc(FailedIn(before, failing), ws);
    MapMinusTwice(startData, Elems(FailedIn(before, failing)), ws);
  }

  /** A delivered send of the broadcast disconnects nobody. */
  lemma MainSendKept(start: seq<ConnId>, startData: map<ConnId, Metadata>, targets: seq<ConnId>,
                     i: nat, failing: set<ConnId>)
    requires i < |targets| && targets[i] !in failing
    ensures ActiveAfter(start, targets, i + 1, failing) == ActiveAfter(start, targets, i, failing)
    ensures DataAfter(startData, targets, i + 1, failing) == DataAfter(startData, targets, i, failing)
  {
    assert targets[..i + 1] == targets[..i] + [targets[i]];
    FailedInSnoc(targets[..i], targets[i], failing);
    assert FailedIn(targets[..i], failing) + [] == FailedIn(targets[..i], failing);
  }
}
