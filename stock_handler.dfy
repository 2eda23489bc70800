/** The stock update handler of the typed connection manager: every tick the
    session is asked for the symbol's 30 most recent rows, and the resulting
    `stock_update` frame is sent to the connection through the manager. A
    failed send only disconnects the connection (the manager swallows the
    error), so the loop goes on; an exception of its own (a query that
    raises, a price that does not convert) ends it. The store at each tick
    is an input; the pause between ticks is not modelled. */
module StockHandler {
  import opened Common
  import opened MarketFrames
  import opened SymbolStream
  import opened ConnectionManager

  /** Disconnecting a connection that is not in the list, any number of
      times, changes nothing. */
  lemma {:induction false} RemoveAbsentRepeated(s: seq<ConnId>, ws: ConnId, n: nat)
    requires ws !in s
    ensures RemoveEach(s, Repeated(ws, n)) == s
    decreases n
  {
    if n > 0 {
      assert Repeated(ws, n)[1..] == Repeated(ws, n - 1);
      assert RemoveFirst(s, ws) == s;
      RemoveAbsentRepeated(s, ws, n - 1);
    }
  }

  /** One more failed send is one more `disconnect` at the end. */
  lemma RepeatedSnoc(s: seq<ConnId>, ws: ConnId, n: nat)
    ensures RemoveEach(s, Repeated(ws, n + 1)) == RemoveFirst(RemoveEach(s, Repeated(ws, n)), ws)
  {
    assert Repeated(ws, n + 1) == Repeated(ws, n) + [ws];
    RemoveEachSnoc(s, Repeated(ws, n), ws);
  }

  /** The connection list after `i` sends to `ws`: one occurrence of `ws`
      fewer per failed send. */
  function PushedActive(start: seq<ConnId>, ws: ConnId, i: nat, failing: set<ConnId>): seq<ConnId>
  {
    if ws in failing then RemoveEach(start, Repeated(ws, i)) else start
  }

  /** The metadata after `i` sends to `ws`: its entry goes with the first
      failed send to an active `ws`. */
  function PushedData(start: seq<ConnId>, startData: map<ConnId, Metadata>, ws: ConnId, i: nat,
                      failing: set<ConnId>): map<ConnId, Metadata>
  {
    if ws in failing && i > 0 && ws in start then startData - {ws} else startData
  }

  /** One send of the loop, through the manager. */
  method PushOne(manager: WebSocketManager, ws: ConnId, failing: set<ConnId>, i: nat,
                 ghost start: seq<ConnId>, ghost startData: map<ConnId, Metadata>)
    requires manager.Valid()
    requires manager.activeConnections == PushedActive(start, ws, i, failing)
    requires manager.connectionData == PushedData(start, startData, ws, i, failing)
    modifies manager
    ensures manager.Valid()
    ensures manager.activeConnections == PushedActive(start, ws, i + 1, failing)
    ensures manager.connectionData == PushedData(start, startData, ws, i + 1, failing)
    ensures ws !in failing ==> unchanged(manager)
  {
    if ws in failing {
      RepeatedSnoc(start, ws, i);
      if ws !in start {
        RemoveAbsentRepeated(start, ws, i);
        RemoveAbsentRepeated(start, ws, i + 1);
      }
    }
    var _ := manager.SendPersonalMessage(ws, failing);
  }

  /** The `while True` loop shared by the stock and crypto handlers: the
      frames of the ticks in order, up to the first tick that raises, each
      sent to `ws`. When `ws`'s sends fail, each one disconnects it again:
      the list loses one occurrence of `ws` per frame (none once it is gone)
      and its metadata is dropped if it was active; otherwise nothing
      changes. */
  method PushUpdates(manager: WebSocketManager, ws: ConnId, kind: string, querySymbol: string,
                     frameSymbol: string, stores: seq<map<string, Query>>, failing: set<ConnId>)
    returns (frames: seq<SymbolFrame>)
    requires manager.Valid()
    modifies manager
    ensures manager.Valid()
    ensures |frames| <= |stores|
    ensures forall k :: 0 <= k < |frames| ==>
              FrameOf(kind, frameSymbol, QueryOf(stores[k], querySymbol)) == Some(frames[k])
    ensures |frames| < |stores| ==> FrameOf(kind, frameSymbol, QueryOf(stores[|frames|], querySymbol)).None?
    ensures ws !in failing ==> unchanged(manager)
    ensures ws in failing ==>
              manager.activeConnections == RemoveEach(old(manager.activeConnections), Repeated(ws, |frames|))
    ensures ws in failing && |frames| > 0 && ws in old(manager.activeConnections) ==>
              manager.connectionData == old(manager.connectionData) - {ws}
    ensures ws in failing && (|frames| == 0 || ws !in old(manager.activeConnections)) ==>
              manager.connectionData == old(manager.connectionData)
  {
    ghost var start, startData := manager.activeConnections, manager.connectionData;
    frames := [];
    var i := 0;
    while i < |stores|
      invariant 0 <= i <= |stores| && |frames| == i
      invariant forall k :: 0 <= k < i ==>
                  FrameOf(kind, frameSymbol, QueryOf(stores[k], querySymbol)) == Some(frames[k])
      invariant manager.Valid()
      invariant manager.activeConnections == PushedActive(start, ws, i, failing)
      invariant manager.connectionData == PushedData(start, startData, ws, i, failing)
      invariant ws !in failing ==> unchanged(manager)
    {
      var frame := ShapeFrame(kind, frameSymbol, QueryOf(stores[i], querySymbol));
      if frame.None? {
        return;
      }
      PushOne(manager, ws, failing, i, start, startData);
      frames := frames + [frame.value];
      i := i + 1;
    }
  }

  class StockHandler {
    const manager: WebSocketManager

    constructor (manager: WebSocketManager)
      ensures this.manager == manager
    {
      this.manager := manager;
    }

    /** `handle_stock_updates`: `stock_update` frames for `symbol` as
        given. */
    method HandleStockUpdates(ws: ConnId, symbol: string, stores: seq<map<string, Query>>,
                              failing: set<ConnId>)
      returns (frames: seq<SymbolFrame>)
      requires manager.Valid()
      modifies manager
      ensures manager.Valid()
      ensures |frames| <= |stores|
      ensures forall k :: 0 <= k < |frames| ==>
                FrameOf("stock_update", symbol, QueryOf(stores[k], symbol)) == Some(frames[k])
      ensures |frames| < |stores| ==> FrameOf("stock_update", symbol, QueryOf(stores[|frames|], symbol)).None?
      ensures ws !in failing ==> unchanged(manager)
      ensures ws in failing ==>
                manager.activeConnections == RemoveEach(old(manager.activeConnections), Repeated(ws, |frames|))
      ensures ws in failing && |frames| > 0 && ws in old(manager.activeConnections) ==>
                manager.connectionData == old(manager.connectionData) - {ws}
      ensures ws in failing && (|frames| == 0 || ws !in old(manager.activeConnections)) ==>
                manager.connectionData == old(manager.connectionData)
    {
      frames := PushUpdates(manager, ws, "stock_update", symbol, symbol, stores, failing);
    }
  }
}
