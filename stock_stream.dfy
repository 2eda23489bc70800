/** The `/ws/stocks` endpoint of the stock API: every accepted connection is
    registered under its query symbol in the symbol-tagged client list, and
    a provider reader is started for a symbol only the first time the symbol
    is seen. `running_threads` is never cleaned up. The reader threads and
    the ping loop are not modelled; which exception ends a session is an
    input. */
module StockStream {
  import opened Common
  import opened SymbolClients

  /** How the ping loop of a session ends: the client disconnected, or some
      other exception escaped (a failed send that is not a disconnect). */
  datatype SessionEnd = ClientDisconnected | OtherError

  class StockEndpoint {
    const registry: ClientRegistry
    /** `running_threads`: symbol -> the reader started for it (its number
        in `readersStarted`). */
    var runningThreads: map<string, nat>
    /** Every reader ever started, by symbol, in start order. */
    var readersStarted: seq<string>

    /** A reader is recorded for exactly the symbols that have one, and no
        symbol ever had two. */
    ghost predicate Valid()
      reads this
    {
      && Distinct(readersStarted)
      && (forall s :: s in runningThreads <==> s in readersStarted)
    }

    constructor (registry: ClientRegistry)
      ensures Valid()
      ensures this.registry == registry && runningThreads == map[] && readersStarted == []
    {
      this.registry := registry;
      runningThreads, readersStarted := map[], [];
    }

    /** Accepting a connection: register it under its symbol, then start a
        reader unless the symbol already has one. */
    method Connect(ws: ConnId, symbol: string)
      requires Valid()
      modifies this, registry
      ensures Valid()
      ensures registry.clients == old(registry.clients) + [ClientEntry(ws, symbol)]
      ensures symbol in runningThreads
      ensures symbol in old(runningThreads) ==>
                runningThreads == old(runningThreads) && readersStarted == old(readersStarted)
      ensures symbol !in old(runningThreads) ==>
                && runningThreads == old(runningThreads)[symbol := |old(readersStarted)|]
                && readersStarted == old(readersStarted) + [symbol]
    {
      registry.SafeAddClient(ws, symbol);
      if symbol !in runningThreads {
        DistinctSnoc(readersStarted, symbol);
        runningThreads := runningThreads[symbol := |readersStarted|];
        readersStarted := readersStarted + [symbol];
      }
    }

    /** The end of a session: a client disconnect removes the connection's
        entries; any other exception leaves them registered. Readers are
        never stopped or forgotten. */
    method EndSession(ws: ConnId, how: SessionEnd)
      requires Valid()
      modifies registry
      ensures Valid()
      ensures how == ClientDisconnected ==> registry.clients == WithoutConn(old(registry.clients), ws)
      ensures how == OtherError ==> registry.clients == old(registry.clients)
      ensures runningThreads == old(runningThreads) && readersStarted == old(readersStarted)
    {
      if how == ClientDisconnected {
        registry.SafeRemoveClient(ws);
      }
    }
  }

  /** Two viewers of the same symbol share one reader, and it outlives
      them both. */
  method OneReaderPerSymbol(a: ConnId, b: ConnId, symbol: string) returns (readers: nat)
    ensures readers == 1
  {
    var registry := new ClientRegistry();
    var endpoint := new StockEndpoint(registry);
    endpoint.Connect(a, symbol);
    endpoint.Connect(b, symbol);
    endpoint.EndSession(a, ClientDisconnected);
    endpoint.EndSession(b, ClientDisconnected);
    readers := |endpoint.readersStarted|;
  }
}
