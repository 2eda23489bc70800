/** The per-symbol chat rooms of the stock API: a dict from symbol to the
    list of connections in that room. A message is relayed to everyone in
    the sender's room, the sender included. Rooms are created on first join
    and never deleted. */
module ChatRooms {
  import opened Common

  /** The sender's room right after it joined. */
  function JoinedRoom(rooms: map<string, seq<ConnId>>, symbol: string, ws: ConnId): seq<ConnId>
  {
    GetOr(rooms, symbol, []) + [ws]
  }

  class ChatRoomRegistry {
    var rooms: map<string, seq<ConnId>>

    constructor ()
      ensures rooms == map[]
    {
      rooms := map[];
    }

    /** Joining: the first join for a symbol creates its empty room; the
        connection is appended to that room and no other. */
    method Join(ws: ConnId, symbol: string)
      modifies this
      ensures symbol !in old(rooms) ==> rooms == old(rooms)[symbol := [ws]]
      ensures symbol in old(rooms) ==> rooms == old(rooms)[symbol := old(rooms)[symbol] + [ws]]
    {
      if symbol !in rooms {
        rooms := rooms[symbol := []];
        assert rooms[symbol] + [ws] == [ws];
      }
      rooms := rooms[symbol := rooms[symbol] + [ws]];
    }

    /** Relaying a received message: it is sent verbatim to the members of
        the sender's room in order, until a send raises. */
    method Relay(symbol: string, text: string, failing: set<ConnId>)
      returns (deliveries: seq<Delivery>, failedAt: Option<ConnId>)
      requires symbol in rooms
      ensures |deliveries| == FirstFailing(rooms[symbol], failing)
      ensures forall i :: 0 <= i < |deliveries| ==> deliveries[i] == Delivery(rooms[symbol][i], text)
      ensures failedAt.None? <==> |deliveries| == |rooms[symbol]|
      ensures failedAt.Some? ==> failedAt.value == rooms[symbol][|deliveries|] && failedAt.value in failing
    {
      deliveries, failedAt := SendUntilFailure(rooms[symbol], text, failing);
    }

    /** Leaving on disconnect: the first occurrence of the connection leaves
        its own room; the room stays even when empty. `list.remove` raises
        when the connection is not there, and then nothing changes. */
    method Leave(ws: ConnId, symbol: string) returns (removed: bool)
      modifies this
      ensures removed <==> symbol in old(rooms) && ws in old(rooms)[symbol]
      ensures removed ==> rooms == old(rooms)[symbol := RemoveFirst(old(rooms)[symbol], ws)]
      ensures !removed ==> rooms == old(rooms)
      ensures rooms.Keys == old(rooms).Keys
    {
      if symbol !in rooms || ws !in rooms[symbol] {
        return false;
      }
      rooms := rooms[symbol := RemoveFirst(rooms[symbol], ws)];
      return true;
    }

    /** One session of the chat endpoint: the connection joins, then each
        received message is relayed, `failing[k]` being the members whose
        send raises while `messages[k]` is relayed. The loop ends in one of
        three ways. The client leaves after the last message, so the next
        receive raises `WebSocketDisconnect` and the connection leaves its
        room. A send raises `WebSocketDisconnect` (`raisesDisconnect`), and
        the handler removes the sender, not the member whose send failed.
        Any other exception escapes the endpoint and removes nobody. Either
        way, a member whose send raised stays listed, so every later relay
        over it raises again. */
    method Session(ws: ConnId, symbol: string, messages: seq<string>, failing: seq<set<ConnId>>,
                   raisesDisconnect: bool)
      returns (log: seq<seq<Delivery>>, failedAt: Option<ConnId>, left: bool)
      requires |failing| == |messages|
      modifies this
      ensures RelayLog(JoinedRoom(old(rooms), symbol, ws), messages, failing, log, failedAt)
      ensures left <==> failedAt.None? || raisesDisconnect
      ensures left ==> rooms == old(rooms)[symbol := RemoveFirst(JoinedRoom(old(rooms), symbol, ws), ws)]
      ensures !left ==> rooms == old(rooms)[symbol := JoinedRoom(old(rooms), symbol, ws)]
      ensures left && ws !in GetOr(old(rooms), symbol, []) ==> rooms == old(rooms)[symbol := GetOr(old(rooms), symbol, [])]
      ensures failedAt.Some? && failedAt.value != ws ==> failedAt.value in rooms[symbol]
    {
      Join(ws, symbol);
      ghost var joined := rooms;
      assert symbol !in old(rooms) ==> JoinedRoom(old(rooms), symbol, ws) == [] + [ws] == [ws];
      assert joined == old(rooms)[symbol := JoinedRoom(old(rooms), symbol, ws)];
      var room := rooms[symbol];
      assert room == JoinedRoom(old(rooms), symbol, ws);
      log, failedAt := RelayEach(room, messages, failing);
      if failedAt.None? || raisesDisconnect {
        left := Leave(ws, symbol);
        assert rooms == joined[symbol := RemoveFirst(room, ws)];
        MapUpdateTwice(old(rooms), symbol, room, RemoveFirst(room, ws));
        if ws !in GetOr(old(rooms), symbol, []) {
          RemoveFirstAppended(GetOr(old(rooms), symbol, []), ws);
        }
      } else {
        left := false;
      }
    }
  }

  /** With no failing sends the sender gets its own message back: after two
      joins to one room, a relay reaches both members in join order. */
  method SenderHearsItself(a: ConnId, b: ConnId, symbol: string, text: string)
    returns (deliveries: seq<Delivery>)
    ensures deliveries == [Delivery(a, text), Delivery(b, text)]
  {
    var registry := new ChatRoomRegistry();
    registry.Join(a, symbol);
    registry.Join(b, symbol);
    var failedAt;
    deliveries, failedAt := registry.Relay(symbol, text, {});
  }

  /** A member whose socket is dead is stranded: when `b`'s send raises a
      disconnect during `a`'s session, `a` is removed and `b` stays, so the
      next relay in that room raises at `b` again. */
  method DeadMemberStranded(a: ConnId, b: ConnId, symbol: string, text: string, later: string)
    returns (failedAt: Option<ConnId>, room: seq<ConnId>, laterFailedAt: Option<ConnId>)
    requires a != b
    ensures failedAt == Some(b)
    ensures room == [b]
    ensures laterFailedAt == Some(b)
  {
    var registry := new ChatRoomRegistry();
    registry.Join(b, symbol);
    var log, left;
    log, failedAt, left := registry.Session(a, symbol, [text], [{b}], true);
    room := registry.rooms[symbol];
    var sent;
    sent, laterFailedAt := registry.Relay(symbol, later, {b});
  }
}
