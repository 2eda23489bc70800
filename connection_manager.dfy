/** `WebSocketManager` of the websocket package: a list of active
    connections plus a metadata dict keyed by connection. Sends are not
    performed: `failing` names the connections whose send would raise. */
module ConnectionManager {
  import opened Common

  /** A connection's metadata dict (e.g. `{"type": "main"}`). */
  type Metadata = map<string, string>

  /** `data.get("type") == t`. */
  predicate HasType(m: Metadata, t: string)
  {
    "type" in m && m["type"] == t
  }

  /** `[ws for ws, data in connection_data.items() if data.get("type") == t
      and ws in active_connections]`, with the dict's keys in insertion
      order `order`. */
  function ConnectionsOfType(order: seq<ConnId>, data: map<ConnId, Metadata>,
                             active: seq<ConnId>, t: string): (r: seq<ConnId>)
    ensures forall c :: c in r <==> c in order && c in data && HasType(data[c], t) && c in active
    ensures Distinct(order) ==> Distinct(r)
    decreases |order|
  {
    if |order| == 0 then []
    else
      var c := order[0];
      var rest := ConnectionsOfType(order[1..], data, active, t);
      var head := if c in data && HasType(data[c], t) && c in active then [c] else [];
      assert Distinct(order) ==> Distinct(head + rest) by {
        if Distinct(order) {
          assert Distinct(order[1..]);
          if head == [c] {
            assert c !in rest;
            assert (head + rest)[1..] == rest;
          } else {
            assert head + rest == rest;
          }
        }
      }
      head + rest
  }

  class WebSocketManager {
    var activeConnections: seq<ConnId>
    var connectionData: map<ConnId, Metadata>
    /** The keys of `connection_data` in insertion order. */
    var dataOrder: seq<ConnId>

    ghost predicate Valid()
      reads this
    {
      Distinct(dataOrder) && forall c :: c in dataOrder <==> c in connectionData
    }

    constructor ()
      ensures Valid()
      ensures activeConnections == [] && connectionData == map[] && dataOrder == []
    {
      activeConnections, connectionData, dataOrder := [], map[], [];
    }

    /** `connect`: appends the connection and records its metadata, or an
        empty dict when none (or an empty one) is given. */
    method Connect(ws: ConnId, metadata: Option<Metadata>)
      requires Valid()
      modifies this
      ensures Valid()
      ensures activeConnections == old(activeConnections) + [ws]
      ensures connectionData == old(connectionData)[ws := if metadata.Some? then metadata.value else map[]]
      ensures dataOrder == if ws in old(connectionData) then old(dataOrder) else old(dataOrder) + [ws]
    {
      activeConnections := activeConnections + [ws];
      if ws !in connectionData {
        DistinctSnoc(dataOrder, ws);
        dataOrder := dataOrder + [ws];
      }
      connectionData := connectionData[ws := if metadata.Some? then metadata.value else map[]];
    }

    /** `disconnect`: for an active connection, its first occurrence leaves
        the list and its metadata is dropped; otherwise nothing changes. */
    method Disconnect(ws: ConnId)
      requires Valid()
      modifies this
      ensures Valid()
      ensures ws in old(activeConnections) ==>
                && activeConnections == RemoveFirst(old(activeConnections), ws)
                && connectionData == old(connectionData) - {ws}
                && dataOrder == Surviving(old(dataOrder), {ws})
      ensures ws !in old(activeConnections) ==> unchanged(this)
    {
      if ws in activeConnections {
        activeConnections := RemoveFirst(activeConnections, ws);
        RemoveFirstDistinct(dataOrder, ws);
        dataOrder := Surviving(dataOrder, {ws});
        connectionData := connectionData - {ws};
      }
    }

    /** `send_personal_message`: a failed send disconnects that connection
        and no other. */
    method SendPersonalMessage(ws: ConnId, failing: set<ConnId>) returns (delivered: bool)
      requires Valid()
      modifies this
      ensures Valid()
      ensures delivered <==> ws !in failing
      ensures delivered ==> unchanged(this)
      ensures !delivered && ws in old(activeConnections) ==>
                activeConnections == RemoveFirst(old(activeConnections), ws)
                && connectionData == old(connectionData) - {ws}
      ensures !delivered && ws !in old(activeConnections) ==> unchanged(this)
    {
      if ws in failing {
        Disconnect(ws);
        return false;
      }
      return true;
    }

    /** `get_connections_by_type`: the active connections whose metadata
        type is `t`, in the metadata dict's order, each once. */
    function GetConnectionsByType(t: string): (r: seq<ConnId>)
      reads this
      requires Valid()
      ensures forall c :: c in r <==> c in activeConnections && c in connectionData && HasType(connectionData[c], t)
      ensures Distinct(r)
    {
      ConnectionsOfType(dataOrder, connectionData, activeConnections, t)
    }

    /** The cleanup loop shared by both broadcasts: `disconnect` for each
        collected connection in turn, where the (k+1)-th collected one is
        still present once the first k are gone. */
    method DisconnectFailed(failed: seq<ConnId>)
      requires Valid()
      requires forall k :: 0 <= k < |failed| ==> failed[k] in RemoveEach(activeConnections, failed[..k])
      modifies this
      ensures Valid()
      ensures activeConnections == RemoveEach(old(activeConnections), failed)
      ensures connectionData == old(connectionData) - Elems(failed)
      ensures dataOrder == Surviving(old(dataOrder), Elems(failed))
    {
      ghost var start, startData, startOrder := activeConnections, connectionData, dataOrder;
      var k := 0;
      SurvivingNoop(dataOrder, Elems(failed[..0]));
      while k < |failed|
        invariant 0 <= k <= |failed| && Valid()
        invariant activeConnections == RemoveEach(start, failed[..k])
        invariant connectionData == startData - Elems(failed[..k])
        invariant dataOrder == Surviving(startOrder, Elems(failed[..k]))
      {
        var ws := failed[k];
        assert ws in activeConnections;
        DisconnectStep(start, startData, startOrder, failed, k);
        Disconnect(ws);
        k := k + 1;
      }
      assert failed[..k] == failed;
    }

    /** `broadcast`: nothing happens without connections; otherwise every
        connection is sent to, the failed ones are collected in list order
        and then disconnected one by one. The list ends up as the old list
        without the failed connections, in the same order, and exactly their
        metadata is dropped. */
    method Broadcast(failing: set<ConnId>) returns (attempted: seq<ConnId>)
      requires Valid()
      modifies this
      ensures Valid()
      ensures attempted == old(activeConnections)
      ensures activeConnections == Surviving(old(activeConnections), failing)
      ensures connectionData == old(connectionData) - Elems(FailedIn(old(activeConnections), failing))
      ensures forall c :: c in connectionData <==>
                c in old(connectionData) && !(c in old(activeConnections) && c in failing)
    {
      attempted := activeConnections;
      if |activeConnections| == 0 {
        return;
      }
      var snapshot := activeConnections;
      var disconnected := CollectFailed(snapshot, failing);
      forall k | 0 <= k < |disconnected|
        ensures disconnected[k] in RemoveEach(snapshot, disconnected[..k])
      {
        RemoveEachPrefix(snapshot, failing, k);
        NextFailedPresent(snapshot, failing, k);
      }
      DisconnectFailed(disconnected);
      RemoveEachFailed(snapshot, failing);
    }

    /** `broadcast_to_type`: sends only to the connections of type `t`;
        nothing happens when there are none; exactly the failed ones among
        them are disconnected, and every other connection keeps its place
        in the list and its metadata. */
    method BroadcastToType(t: string, failing: set<ConnId>) returns (targets: seq<ConnId>)
      requires Valid()
      modifies this
      ensures Valid()
      ensures targets == old(GetConnectionsByType(t))
      ensures activeConnections == RemoveEach(old(activeConnections), FailedIn(targets, failing))
      ensures forall c :: c !in failing || c !in targets ==>
                (c in activeConnections <==> c in old(activeConnections))
      ensures connectionData == old(connectionData) - Elems(FailedIn(targets, failing))
    {
      targets := GetConnectionsByType(t);
      if |targets| == 0 {
        return;
      }
      var disconnected := CollectFailed(targets, failing);
      FailedInDistinct(targets, failing);
      forall k | 0 <= k < |disconnected|
        ensures disconnected[k] in RemoveEach(activeConnections, disconnected[..k])
      {
        DistinctNotBefore(disconnected, k);
        OthersStay(activeConnections, disconnected[..k], disconnected[k]);
      }
      DisconnectFailed(disconnected);
      forall c | c !in failing || c !in targets
        ensures c in activeConnections <==> c in old(activeConnections)
      {
        OthersStay(old(activeConnections), disconnected, c);
      }
    }

    /** `update_connection_data`: merges `data` into the metadata of a
        connection that has some (later keys win, as in `dict.update`);
        for any other connection nothing changes. */
    method UpdateConnectionData(ws: ConnId, data: Metadata)
      requires Valid()
      modifies this
      ensures Valid()
      ensures ws in old(connectionData) ==> connectionData == old(connectionData)[ws := old(connectionData)[ws] + data]
      ensures ws !in old(connectionData) ==> connectionData == old(connectionData)
      ensures activeConnections == old(activeConnections) && dataOrder == old(dataOrder)
    {
      if ws in connectionData {
        connectionData := connectionData[ws := connectionData[ws] + data];
      }
    }
  }

  /** One turn of the cleanup loop: the states after k + 1 removals in
      terms of the states after k. */
  lemma DisconnectStep(start: seq<ConnId>, startData: map<ConnId, Metadata>, startOrder: seq<ConnId>,
                       failed: seq<ConnId>, k: nat)
    requires k < |failed|
    ensures RemoveEach(start, failed[..k + 1]) == RemoveFirst(RemoveEach(start, failed[..k]), failed[k])
    ensures startData - Elems(failed[..k + 1]) == (startData - Elems(failed[..k])) - {failed[k]}
    ensures Surviving(startOrder, Elems(failed[..k + 1]))
            == Surviving(Surviving(startOrder, Elems(failed[..k])), {failed[k]})
  {
    var before, x := failed[..k], failed[k];
    assert failed[..k + 1] == before + [x];
    RemoveEachSnoc(start, before, x);
    ElemsSnoc(before, x);
    MapMinusTwice(startData, Elems(before), x);
    SurvivingTwice(startOrder, Elems(before), {x});
  }

  lemma ElemsSnoc(xs: seq<ConnId>, x: ConnId)
    ensures Elems(xs + [x]) == Elems(xs) + {x}
  {
    assert forall y :: y in Elems(xs + [x]) <==> y in xs + [x];
  }

  lemma MapMinusTwice(m: map<ConnId, Metadata>, e: set<ConnId>, x: ConnId)
    ensures m - (e + {x}) == (m - e) - {x}
  {
  }

  /** Removing elements other than `c` does not change whether `c` is in
      the list. */
  lemma {:induction false} OthersStay(s: seq<ConnId>, xs: seq<ConnId>, c: ConnId)
    requires c !in xs
    ensures c in RemoveEach(s, xs) <==> c in s
    decreases |xs|
  {
    if |xs| > 0 {
      assert c != xs[0];
      OthersStay(RemoveFirst(s, xs[0]), xs[1..], c);
    }
  }
}
