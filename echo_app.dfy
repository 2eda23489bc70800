/** The WebSocket endpoint of the standalone FastAPI app: one list of
    connections; each received text is forwarded unchanged to all of them,
    the sender included. */
module EchoApp {
  import opened Common

  class ConnectionList {
    var connections: seq<ConnId>

    constructor ()
      ensures connections == []
    {
      connections := [];
    }

    /** Accepting appends the connection. */
    method Accept(ws: ConnId)
      modifies this
      ensures connections == old(connections) + [ws]
    {
      connections := connections + [ws];
    }

    /** Forwarding: the text goes unchanged to every connection in list
        order, until a send raises. */
    method Forward(text: string, failing: set<ConnId>)
      returns (deliveries: seq<Delivery>, failedAt: Option<ConnId>)
      ensures |deliveries| == FirstFailing(connections, failing)
      ensures forall i :: 0 <= i < |deliveries| ==> deliveries[i] == Delivery(connections[i], text)
      ensures failedAt.None? <==> |deliveries| == |connections|
      ensures failedAt.Some? ==> failedAt.value == connections[|deliveries|] && failedAt.value in failing
    {
      deliveries, failedAt := SendUntilFailure(connections, text, failing);
    }

    /** Disconnect: the connection's first occurrence goes and no other
        connection is removed; `list.remove` raises when it is not there,
        and then nothing changes. */
    method Disconnect(ws: ConnId) returns (removed: bool)
      modifies this
      ensures removed <==> ws in old(connections)
      ensures removed ==> connections == RemoveFirst(old(connections), ws)
      ensures !removed ==> connections == old(connections)
      ensures forall c :: c != ws ==> (c in connections <==> c in old(connections))
    {
      if ws !in connections {
        return false;
      }
      connections := RemoveFirst(connections, ws);
      return true;
    }

    /** One session of the `/ws` endpoint: the connection is accepted, then each
        received message is relayed, `failing[k]` being the connections
        whose send raises while `messages[k]` is relayed. The loop ends in
        one of three ways. The client leaves after the last message, so the
        next receive raises `WebSocketDisconnect` and the connection is
        removed. A send raises `WebSocketDisconnect` (`raisesDisconnect`),
        and the handler removes the sender, not the connection whose send
        failed. Any other exception escapes the endpoint and removes
        nobody. Either way, a connection whose send raised stays listed, so
        every later relay over it raises again. */
    method Session(ws: ConnId, messages: seq<string>, failing: seq<set<ConnId>>, raisesDisconnect: bool)
      returns (log: seq<seq<Delivery>>, failedAt: Option<ConnId>, left: bool)
      requires |failing| == |messages|
      modifies this
      ensures RelayLog(old(connections) + [ws], messages, failing, log, failedAt)
      ensures left <==> failedAt.None? || raisesDisconnect
      ensures left ==> connections == RemoveFirst(old(connections) + [ws], ws)
      ensures !left ==> connections == old(connections) + [ws]
      ensures left && ws !in old(connections) ==> connections == old(connections)
      ensures failedAt.Some? && failedAt.value != ws ==> failedAt.value in connections
    {
      Accept(ws);
      log, failedAt := RelayEach(connections, messages, failing);
      if failedAt.None? || raisesDisconnect {
        left := Disconnect(ws);
        if ws !in old(connections) {
          RemoveFirstAppended(old(connections), ws);
        }
      } else {
        left := false;
      }
    }
  }
}
