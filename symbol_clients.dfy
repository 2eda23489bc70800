/** The symbol-tagged client list of the stock package's utilities: each
    entry pairs a connection with the symbol it subscribed to; a broadcast
    goes to the entries of the frame's symbol only, swallows send failures
    and never changes the list. */
module SymbolClients {
  import opened Common

  datatype ClientEntry = ClientEntry(ws: ConnId, symbol: string)

  /** The part of a broadcast frame the manager reads: the `"s"` field of
      each element of `data["data"]`, where an element may lack it. */
  datatype Frame = Frame(data: seq<Option<string>>)

  /** `data["data"][0]["s"]`, or None when that lookup raises (an empty
      data list or a first element without "s"). */
  function FrameSymbol(f: Frame): (r: Option<string>)
    ensures r.Some? <==> |f.data| > 0 && f.data[0].Some?
    ensures r.Some? ==> r.value == f.data[0].value
  {
    if |f.data| == 0 then None else f.data[0]
  }

  /** The entries of other connections, in order (the comprehension of
      `safe_remove_client`). */
  function WithoutConn(clients: seq<ClientEntry>, ws: ConnId): (r: seq<ClientEntry>)
    ensures forall e :: e in r <==> e in clients && e.ws != ws
    ensures |r| <= |clients|
  {
    if |clients| == 0 then []
    else
      var last := clients[|clients| - 1];
      WithoutConn(clients[..|clients| - 1], ws) + (if last.ws != ws then [last] else [])
  }

  /** The connections subscribed to `symbol`, in list order, once per
      entry. */
  function Recipients(clients: seq<ClientEntry>, symbol: string): (r: seq<ConnId>)
    ensures forall c :: c in r ==> ClientEntry(c, symbol) in clients
    ensures forall e :: e in clients && e.symbol == symbol ==> e.ws in r
    ensures |r| <= |clients|
  {
    if |clients| == 0 then []
    else
      var last := clients[|clients| - 1];
      var before := Recipients(clients[..|clients| - 1], symbol);
      assert forall e :: e in clients ==> e in clients[..|clients| - 1] || e == last;
      before + (if last.symbol == symbol then [last.ws] else [])
  }

  /** One more entry extends the recipients by its connection when it has
      the symbol. */
  lemma RecipientsStep(clients: seq<ClientEntry>, i: nat, symbol: string)
    requires i < |clients|
    ensures Recipients(clients[..i + 1], symbol) ==
              Recipients(clients[..i], symbol) + (if clients[i].symbol == symbol then [clients[i].ws] else [])
  {
    assert clients[..i + 1][..i] == clients[..i];
  }

  class ClientRegistry {
    var clients: seq<ClientEntry>

    constructor ()
      ensures clients == []
    {
      clients := [];
    }

    /** `safe_add_client`: one entry appended at the end. */
    method SafeAddClient(ws: ConnId, symbol: string)
      modifies this
      ensures clients == old(clients) + [ClientEntry(ws, symbol)]
    {
      clients := clients + [ClientEntry(ws, symbol)];
    }

    /** `safe_remove_client`: every entry of the connection goes, whatever
        its symbol; the others keep their order. */
    method SafeRemoveClient(ws: ConnId)
      modifies this
      ensures clients == WithoutConn(old(clients), ws)
    {
      clients := WithoutConn(clients, ws);
    }

    /** `broadcast_stock_data`: the frame's symbol is read first (a failed
        read raises before anything is sent); then each entry of exactly
        that symbol is sent to, in list order; failures are swallowed and
        the list is left as it was. */
    method BroadcastStockData(frame: Frame, failing: set<ConnId>)
      returns (attempted: seq<ConnId>, delivered: seq<ConnId>, raised: bool)
      ensures raised <==> FrameSymbol(frame).None?
      ensures raised ==> attempted == [] && delivered == []
      ensures !raised ==> attempted == Recipients(clients, FrameSymbol(frame).value)
      ensures delivered == Surviving(attempted, failing)
      ensures forall c :: c in attempted ==> ClientEntry(c, FrameSymbol(frame).value) in clients
    {
      attempted, delivered := [], [];
      var symbol := FrameSymbol(frame);
      if symbol.None? {
        return attempted, delivered, true;
      }
      var i := 0;
      while i < |clients|
        invariant 0 <= i <= |clients|
        invariant attempted == Recipients(clients[..i], symbol.value)
        invariant delivered == Surviving(attempted, failing)
      {
        var client := clients[i];
        RecipientsStep(clients, i, symbol.value);
        if client.symbol == symbol.value {
          SurvivingSnoc(attempted, client.ws, failing);
          attempted := attempted + [client.ws];
          if client.ws !in failing {
            delivered := delivered + [client.ws];
          }
        }
        i := i + 1;
      }
      assert clients[..i] == clients;
      return attempted, delivered, false;
    }
  }
}
