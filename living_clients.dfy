/** The client list of the original backend's utilities: a flat list whose
    broadcast keeps only the clients that took the frame. */
module LivingClients {
  import opened Common

  class ClientList {
    var clients: seq<ConnId>

    constructor ()
      ensures clients == []
    {
      clients := [];
    }

    /** `safe_add_client`: the connection is appended. */
    method SafeAddClient(ws: ConnId)
      modifies this
      ensures clients == old(clients) + [ws]
    {
      clients := clients + [ws];
    }

    /** `safe_remove_client`: `list.remove`, which raises for a connection
        that is not in the list; `removed` is false exactly then, and the
        list is left alone. */
    method SafeRemoveClient(ws: ConnId) returns (removed: bool)
      modifies this
      ensures removed <==> ws in old(clients)
      ensures removed ==> clients == RemoveFirst(old(clients), ws)
      ensures !removed ==> clients == old(clients)
    {
      if ws !in clients {
        return false;
      }
      clients := RemoveFirst(clients, ws);
      return true;
    }

    /** `broadcast_stock_data`: every client is sent to in list order; the
        ones whose send succeeded are kept, in order, and replace the
        list. */
    method BroadcastStockData(failing: set<ConnId>) returns (attempted: seq<ConnId>)
      modifies this
      ensures attempted == old(clients)
      ensures clients == Surviving(old(clients), failing)
    {
      attempted := [];
      var living := [];
      var i := 0;
      while i < |clients|
        invariant 0 <= i <= |clients| && clients == old(clients)
        invariant attempted == clients[..i]
        invariant living == Surviving(clients[..i], failing)
      {
        var ws := clients[i];
        SurvivingSnoc(clients[..i], ws, failing);
        assert clients[..i + 1] == clients[..i] + [ws];
        attempted := attempted + [ws];
        if ws !in failing {
          living := living + [ws];
        }
        i := i + 1;
      }
      assert clients[..i] == clients;
      clients := living;
    }
  }
}
