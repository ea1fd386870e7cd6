/**
 * The WebSocket server's client set and what it sends. A connected client is an
 * id and a ready state; `send` appends to the server's outbox.
 */
module Sockets {
  datatype ReadyState = Connecting | Open | Closing | Closed

  datatype Client = Client(id: nat, state: ReadyState)

  /** The `{ type: 'INVENTORY_UPDATE', productId, newStockQuantity }` message. */
  datatype InventoryUpdate = InventoryUpdate(productId: int, newStockQuantity: int)

  datatype Delivery = Delivery(clientId: nat, payload: InventoryUpdate)

  /** What `clients.forEach(c => if (c.readyState === OPEN) c.send(payload))` sends, in client order. */
  function Deliveries(clients: seq<Client>, payload: InventoryUpdate): seq<Delivery>
    decreases |clients|
  {
    if clients == [] then []
    else
      var last := clients[|clients| - 1];
      Deliveries(clients[..|clients| - 1], payload)
        + (if last.state == Open then [Delivery(last.id, payload)] else [])
  }

  /** One broadcast per payload, in order. */
  function Fanout(clients: seq<Client>, payloads: seq<InventoryUpdate>): seq<Delivery>
    decreases |payloads|
  {
    if payloads == [] then []
    else Fanout(clients, payloads[..|payloads| - 1]) + Deliveries(clients, payloads[|payloads| - 1])
  }

  lemma FanoutSnoc(clients: seq<Client>, payloads: seq<InventoryUpdate>, payload: InventoryUpdate)
    ensures Fanout(clients, payloads + [payload]) == Fanout(clients, payloads) + Deliveries(clients, payload)
  {
    assert (payloads + [payload])[..|payloads|] == payloads;
  }

  predicate DistinctClients(clients: seq<Client>)
  {
    forall i, j :: 0 <= i < j < |clients| ==> clients[i].id != clients[j].id
  }

  /** The deliveries addressed to one client. */
  function To(ds: seq<Delivery>, clientId: nat): seq<InventoryUpdate>
  {
    if ds == [] then []
    else
      var last := ds[|ds| - 1];
      To(ds[..|ds| - 1], clientId) + (if last.clientId == clientId then [last.payload] else [])
  }

  lemma {:induction false} ToAppend(a: seq<Delivery>, b: seq<Delivery>, clientId: nat)
    ensures To(a + b, clientId) == To(a, clientId) + To(b, clientId)
    decreases |b|
  {
    if b != [] {
      var b' := b[..|b| - 1];
      assert (a + b)[..|a + b| - 1] == a + b';
      assert (a + b)[|a + b| - 1] == b[|b| - 1];
      ToAppend(a, b', clientId);
    } else {
      assert a + b == a;
    }
  }

  /** A broadcast reaches a client exactly once if it is open, and not at all otherwise. */
  lemma {:induction false} BroadcastReaches(clients: seq<Client>, payload: InventoryUpdate, k: nat)
    requires DistinctClients(clients) && k < |clients|
    ensures To(Deliveries(clients, payload), clients[k].id)
      == if clients[k].state == Open then [payload] else []
    decreases |clients|
  {
    var n := |clients|;
    var init := clients[..n - 1];
    var last := clients[n - 1];
    var tail := if last.state == Open then [Delivery(last.id, payload)] else [];
    ToAppend(Deliveries(init, payload), tail, clients[k].id);
    assert To(tail, clients[k].id) == if last.state == Open && last.id == clients[k].id then [payload] else [] by {
      if tail != [] { assert tail[..0] == []; }
    }
    if k < n - 1 {
      BroadcastReaches(init, payload, k);
    } else {
      BroadcastMisses(init, payload, last.id);
    }
  }

  /** A client that is not in the set receives nothing. */
  lemma {:induction false} BroadcastMisses(clients: seq<Client>, payload: InventoryUpdate, clientId: nat)
    requires forall i :: 0 <= i < |clients| ==> clients[i].id != clientId
    ensures To(Deliveries(clients, payload), clientId) == []
    decreases |clients|
  {
    if clients != [] {
      var n := |clients|;
      var last := clients[n - 1];
      var tail := if last.state == Open then [Delivery(last.id, payload)] else [];
      ToAppend(Deliveries(clients[..n - 1], payload), tail, clientId);
      BroadcastMisses(clients[..n - 1], payload, clientId);
      if tail != [] { assert tail[..0] == []; }
    }
  }

  /** Over many broadcasts, an open client receives every payload once, in order; any other client none. */
  lemma {:induction false} FanoutReaches(clients: seq<Client>, payloads: seq<InventoryUpdate>, k: nat)
    requires DistinctClients(clients) && k < |clients|
    ensures To(Fanout(clients, payloads), clients[k].id)
      == if clients[k].state == Open then payloads else []
    decreases |payloads|
  {
    if payloads != [] {
      var init := payloads[..|payloads| - 1];
      FanoutReaches(clients, init, k);
      ToAppend(Fanout(clients, init), Deliveries(clients, payloads[|payloads| - 1]), clients[k].id);
      BroadcastReaches(clients, payloads[|payloads| - 1], k);
      assert payloads == init + [payloads[|payloads| - 1]];
    }
  }

  /** The server's connected clients and everything sent to them so far. */
  class Hub {
    var clients: seq<Client>
    var outbox: seq<Delivery>

    constructor (clients: seq<Client>)
      ensures this.clients == clients && outbox == []
    {
      this.clients := clients;
      outbox := [];
    }

    /** Send one payload to every client whose state is OPEN at the moment of the call. */
    method Broadcast(payload: InventoryUpdate)
      modifies this`outbox
      ensures outbox == old(outbox) + Deliveries(clients, payload)
    {
      for i := 0 to |clients|
        invariant outbox == old(outbox) + Deliveries(clients[..i], payload)
      {
        assert clients[..i + 1][..i] == clients[..i];
        if clients[i].state == Open {
          outbox := outbox + [Delivery(clients[i].id, payload)];
        }
      }
      assert clients[..|clients|] == clients;
    }
  }
}
