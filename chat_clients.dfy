/** The chat endpoint of the original backend: one flat list of chat
    connections; every message goes to all of them, the sender included. */
module ChatClients {
  import opened Common

  class ChatClientList {
    var chatClients: seq<ConnId>

    constructor ()
      ensures chatClients == []
    {
      chatClients := [];
    }

    /** Joining appends the connection. */
    method Join(ws: ConnId)
      modifies this
      ensures chatClients == old(chatClients) + [ws]
    {
      chatClients := chatClients + [ws];
    }

    /** Relaying: the message goes verbatim to every client in list order,
        until a send raises. */
    method Relay(text: string, failing: set<ConnId>)
      returns (deliveries: seq<Delivery>, failedAt: Option<ConnId>)
      ensures |deliveries| == FirstFailing(chatClients, failing)
      ensures forall i :: 0 <= i < |deliveries| ==> deliveries[i] == Delivery(chatClients[i], text)
      ensures failedAt.None? <==> |deliveries| == |chatClients|
      ensures failedAt.Some? ==> failedAt.value == chatClients[|deliveries|] && failedAt.value in failing
    {
      deliveries, failedAt := SendUntilFailure(chatClients, text, failing);
    }

    /** Leaving: the connection's first occurrence goes and no other client
        is removed; `list.remove` raises when it is not there, and then
        nothing changes. */
    method Leave(ws: ConnId) returns (removed: bool)
      modifies this
      ensures removed <==> ws in old(chatClients)
      ensures removed ==> chatClients == RemoveFirst(old(chatClients), ws)
      ensures !removed ==> chatClients == old(chatClients)
      ensures forall c :: c != ws ==> (c in chatClients <==> c in old(chatClients))
    {
      if ws !in chatClients {
        return false;
      }
      chatClients := RemoveFirst(chatClients, ws);
      return true;
    }

    /** One session of the chat endpoint: the connection joins, then each
        received message is relayed, `failing[k]` being the connections
        whose send raises while `messages[k]` is relayed. The loop ends in
        one of three ways. The client leaves after the last message, so the
        next receive raises `WebSocketDisconnect` and the connection is
        removed. A send raises `WebSocketDisconnect` (`raisesDisconnect`),
        and the handler removes the sender, not the connection whose send
        failed. Any other exception escapes the endpoint and removes
        nobody. Either way, a connection whose send raised stays listed, so
        every later relay over it raises again. */
    method Session(ws: ConnId, messages: seq<string>, failing: seq<set<ConnId>>, raisesDisconnect: bool)
      returns (log: seq<seq<Delivery>>, failedAt: Option<ConnId>, left: bool)
      requires |failing| == |messages|
      modifies this
      ensures RelayLog(old(chatClients) + [ws], messages, failing, log, failedAt)
      ensures left <==> failedAt.None? || raisesDisconnect
      ensures left ==> chatClients == RemoveFirst(old(chatClients) + [ws], ws)
      ensures !left ==> chatClients == old(chatClients) + [ws]
      ensures left && ws !in old(chatClients) ==> chatClients == old(chatClients)
      ensures failedAt.Some? && failedAt.value != ws ==> failedAt.value in chatClients
    {
      Join(ws);
      log, failedAt := RelayEach(chatClients, messages, failing);
      if failedAt.None? || raisesDisconnect {
        left := Leave(ws);
        if ws !in old(chatClients) {
          RemoveFirstAppended(old(chatClients), ws);
        }
      } else {
        left := false;
      }
    }
  }
}
