/** The crypto update handler: the stock handler's loop over the crypto
    rows, with the symbol upper-cased both in the query and in the
    `crypto_update` frames it sends. */
module CryptoHandler {
  import opened Common
  import opened MarketFrames
  import opened SymbolStream
  import opened ConnectionManager
  import opened StockHandler

  class CryptoHandler {
    const manager: WebSocketManager

    constructor (manager: WebSocketManager)
      ensures this.manager == manager
    {
      this.manager := manager;
    }

    /** `handle_crypto_updates`: `crypto_update` frames for the upper-cased
        symbol, whatever case the client used. */
    method HandleCryptoUpdates(ws: ConnId, symbol: string, stores: seq<map<string, Query>>,
                               failing: set<ConnId>)
      returns (frames: seq<SymbolFrame>)
      requires manager.Valid()
      modifies manager
      ensures manager.Valid()
      ensures |frames| <= |stores|
      ensures forall k :: 0 <= k < |frames| ==>
                FrameOf("crypto_update", Upper(symbol), QueryOf(stores[k], Upper(symbol))) == Some(frames[k])
      ensures forall k :: 0 <= k < |frames| ==> frames[k].symbol == Upper(symbol)
      ensures |frames| < |stores| ==>
                FrameOf("crypto_update", Upper(symbol), QueryOf(stores[|frames|], Upper(symbol))).None?
      ensures ws !in failing ==> unchanged(manager)
      ensures ws in failing ==>
                manager.activeConnections == RemoveEach(old(manager.activeConnections), Repeated(ws, |frames|))
      ensures ws in failing && |frames| > 0 && ws in old(manager.activeConnections) ==>
                manager.connectionData == old(manager.connectionData) - {ws}
      ensures ws in failing && (|frames| == 0 || ws !in old(manager.activeConnections)) ==>
                manager.connectionData == old(manager.connectionData)
    {
      var upper := Upper(symbol);
      frames := PushUpdates(manager, ws, "crypto_update", upper, upper, stores, failing);
    }
  }
}
