/** The flat `WebSocketManager` of the stock backend: one list of active
    connections. `failing` names the connections whose send would raise. */
module FlatWsManager {
  import opened Common

  class WebSocketManager {
    var activeConnections: seq<ConnId>

    constructor ()
      ensures activeConnections == []
    {
      activeConnections := [];
    }

    /** `connect`: the connection is appended. */
    method Connect(ws: ConnId)
      modifies this
      ensures activeConnections == old(activeConnections) + [ws]
    {
      activeConnections := activeConnections + [ws];
    }

    /** `disconnect`: the first occurrence goes if there is one; otherwise
        nothing changes. */
    method Disconnect(ws: ConnId)
      modifies this
      ensures activeConnections == RemoveFirst(old(activeConnections), ws)
      ensures ws !in old(activeConnections) ==> activeConnections == old(activeConnections)
    {
      if ws in activeConnections {
        activeConnections := RemoveFirst(activeConnections, ws);
      }
    }

    /** `send_personal_message`: a failed send disconnects that
        connection. */
    method SendPersonalMessage(ws: ConnId, failing: set<ConnId>) returns (delivered: bool)
      modifies this
      ensures delivered <==> ws !in failing
      ensures delivered ==> activeConnections == old(activeConnections)
      ensures !delivered ==> activeConnections == RemoveFirst(old(activeConnections), ws)
    {
      if ws in failing {
        Disconnect(ws);
        return false;
      }
      return true;
    }

    /** `broadcast`: nothing happens without connections; otherwise every
        connection is sent to, the failed ones are collected and then
        disconnected, which leaves exactly the others, in their order. */
    method Broadcast(failing: set<ConnId>) returns (attempted: seq<ConnId>)
      modifies this
      ensures attempted == old(activeConnections)
      ensures activeConnections == Surviving(old(activeConnections), failing)
    {
      attempted := activeConnections;
      if |activeConnections| == 0 {
        return;
      }
      var disconnected := CollectFailed(activeConnections, failing);
      ghost var start := activeConnections;
      var k := 0;
      while k < |disconnected|
        invariant 0 <= k <= |disconnected|
        invariant activeConnections == RemoveEach(start, disconnected[..k])
      {
        RemoveEachStep(start, disconnected, k);
        Disconnect(disconnected[k]);
        k := k + 1;
      }
      assert disconnected[..k] == disconnected;
      RemoveEachFailed(start, failing);
    }
  }
}
